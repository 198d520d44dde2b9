# Titlan relay and client: a Dafny model

Titlan is a messenger made of a blind relay (`tezca-relay`) and a client core (`tezca-core`). This project
models both as Dafny programs and state machines and proves what they keep over every run, together with
the byte formats they exchange. `dafny verify dfyconfig.toml` checks everything.

The relay is a lock-protected table of mailboxes. `RelayTable` has its operations on values, `RelayService`
the same operations as methods of an object updated in place, `RelayWorld` their interleaving with
delivery tasks, wake channels and deletes that subtract late, and `RelayDelivery` order, wake-ups and the
fate of every accepted message. `Lifetimes` says how long messages and mailboxes are kept and `Wakes` that
delivery tasks come to rest. `EndToEnd` adds the client's listener and `Overlap` any number of them. `Limits` has
the rate limiters, and `Admission` the relay with them in front.

The client engine sends by flush passes (`Flush`), starts and stops listeners (`Listeners`), and recovers
lost inboxes: `Recovery` is the two-party protocol, `Engine` its handlers as methods, `Mail` what a handler
run does to the queues, `Generations` the numbers, `Weights` a potential that bounds deliveries, `Convergence`
and `Outcomes` the way to equal generations and crossed routes, `Rotation` the move to fresh inboxes,
`Failures` the runs that do not get there. The formats are `Base64Url`, `DerivedIds`, `Padding`, `Wire`,
`Pairing`, `Bundles` and `Offers`; `Layouts` has their bytes in numerals. `Sums` and `Bytes` hold shared
arithmetic, integers as bytes and UTF-8.

## How to read the results

State machines have an `Enabled`/`Apply` pair (or `Possible`/`After`), and theorems quantify over every
run. What the network or the relay answers is an input of a step; a theorem that needs a grant says which
(`Convergence.Granted` asks for the own inbox of an adoption and the fresh inbox and reply of an answered leg,
and for nothing else). In the recovery protocol a delivery hands a frame over exactly once, which is what
`EndToEnd` proves of the relay and the listener, and a handler's requests are one step. Each method is held to
a function on values, and the theorems are about those functions.

Assumptions the code itself depends on: random ids and nonces are fresh; HMAC, signatures and the ratchet
are abstract functions, and a ciphertext decrypts once; store writes succeed; a deposit's reported outcome
is the true one; the process does not die (stopping and restarting sync is modelled, and so is forgetting
the in-memory maps, as `Recovery.Restart`).

Where a property one would expect fails, the exact condition is proved:

- With any number of overlapping listeners delivery is exactly once on every run on which no replay is settled
  while another listener holds that message decrypted and not stored (`Overlap.CarefulIsExact`), and such a
  settlement, on a connection that takes acks, can lose it (`Overlap.HarmlessIff`). A listener started while a
  stop is still joining the first can make one; if starts wait for the earlier listeners to end, none can
  (`Overlap.ExactlyOnceIff`, `Listeners.OneRunsWhenSerial`).
- Dropping a flush pass is harmless if and only if it does not come between the relay's acceptance and the
  mark (`Flush.CutIsHarmlessIff`); then it sends the message again. The listener races its connect-time and
  idle flushes against the stop signal, so such a drop can happen.
- A cut-off recovery attempt makes the recorded peer generation one more than the peer has stored
  (`Generations.CutOffRunsAhead`), and never more than one (`Generations.GenerationsAlways`).
- Once one side is ahead on a live inbox, every calm run that leaves nothing to read ends with crossed routes if
  and only if the other side arrives (`Outcomes.RecoveryConverges`, `Convergence.Arrives`): the announcements
  queued for it lead there, and if it starts astray, one of its own attempts is granted before it is exhausted.
  A side is astray on a lost inbox, on one of pairing or rotation, and in front of a rotation leg that stands
  before the announcement (`Convergence.Astray`); a leg read first takes it away even from a full probe
  (`Failures.LegAheadStrands`). A full probe leads all the way (`Outcomes.AttemptLands`); one that missed an
  inbox on the way may strand the other side (`Failures.MissedCopyStrands`).
- A side on a live inbox of pairing or of an earlier rotation hears nothing until it loses it
  (`Outcomes.NeverReadsProbe`).
- Adopting a higher generation stores the number always and moves the routes if and only if the relay grants
  the own inbox (`Failures.AdoptionNeedsInbox`). After a refusal the routes are never crossed on any run until
  that inbox is lost, or a higher announcement or a leg is read in it (`Failures.RefusedAdoptionSticks`); a
  loss and an attempt then end it (`Failures.LossAndAttemptEndIt`).
- A rotation ends with crossed routes if and only if the offerer started no second one before leg two
  (`Rotation.RotationCompletes`). Without cut-off attempts it cannot (`Outcomes.HellosAlways`,
  `Convergence.ConvergesOnce`); with one it can (`Failures.TwoStartsReached`).
- A rotation can end at all if and only if the responder's fresh inbox was granted and its reply deposited
  (`Rotation.ReplyNeedsGrants`).
- Chat to the responder queued behind the first leg is lost, exactly that (`Rotation.ChatBehindLegOne`), and so
  is chat a flush pass deposits after the hand-over to the route it read before, if and only if that inbox still
  exists (`Rotation.LateDeposit`), that is, if and only if the relay refused its deletion
  (`Rotation.RotationCleansUp`).
- The limiters agree with an unpruned counter on every run on whose clocks no minute is entered twice or lasts the
  idle time (`Limits.LimiterRefines`). A minute that lasts it lets a second request past a limit of one
  (`Limits.LongMinuteFails`), and so does a minute entered again (`Limits.ReturnFails`). Clocks that keep step
  qualify for an idle time of a minute or more (`Limits.OrdinaryIsTimely`) and for no shorter one
  (`Limits.ShortIdleFails`).
- The saturating validity check differs from the integer rule only at the last second of the clock for a
  window reaching past it (`Offers.JudgeExact`).
- Serializing a parsed bundle gives the input back unless the input had a key after an absent one-time id
  (`Bundles.BundleFaithful`); encoding a decoded base64url text gives it back unless unused bits were set
  (`Base64Url.EncodeDecode`).
- The documentation speaks of the total of queued bytes; the global counter also holds the bytes of deletes
  that have released the lock and not yet subtracted. Its bound grows by one mailbox for each
  (`RelayWorld.CounterNeverWraps`), and a run exceeds the table's bound (`RelayWorld.CounterExceedsTable`).

## Model

| member | source | states |
|---|---|---|
| `RelayTable.DepositIsBlind` | tezca-relay/src/api.rs:90-115 | of a deposit's content only the length and five bytes matter; a limited source or malformed deposit gets the same answer whatever mailboxes exist |
| `RelayTable.DepositAnswers` | tezca-relay/src/api.rs:84-112 | for each answer, the exact condition on id, envelope, limiters, mailbox and room, in numerals: accepted exactly with all of them |
| `RelayTable.SweepPopsExactlyExpired` | tezca-relay/src/state.rs:129-138 | on a queue in deposit order the front-only loop pops exactly the messages deposited more than the lifetime ago |
| `RelayTable.SweepNeedsOrder` | tezca-relay/src/state.rs:131-138 | the loop pops exactly those if and only if none of them stands behind a younger one |
| `RelayTable.IdleMailboxIsEmpty` | tezca-relay/src/state.rs:143-146 | a mailbox whose last activity is more than the lifetime ago was emptied by the same sweep, with zero bytes left |
| `RelayTable.SweepConserves` | tezca-relay/src/state.rs:127-148 | bytes before a sweep are bytes after it plus what the sweep subtracts; the table invariant is kept |
| `RelayTable.TableBytesBounds` | tezca-relay/src/api.rs:101-130 | queued bytes over all mailboxes stay within max_mailboxes times mailbox_max_bytes |
| `RelayTable.EnqueueOk` | tezca-relay/src/api.rs:118-125 | a deposit keeps the queue sorted, the counter exact and the last activity no earlier than any queued deposit |
| `RelayTable.DequeueOk` | tezca-relay/src/api.rs:287-297 | so does an ack |
| `RelayService.AppState.constructor` | tezca-relay/src/state.rs:50-58 | a relay starts with no mailbox and a zero counter |
| `RelayService.AppState.CreateMailbox` | tezca-relay/src/state.rs:68-90 | refused exactly at the cap, otherwise a fresh well-shaped id gets an empty mailbox and nothing else changes |
| `RelayService.AppState.PutMailbox` | tezca-relay/src/state.rs:104-117 | refused exactly at the cap, whether or not the id exists; otherwise the id exists and every other mailbox is untouched |
| `RelayService.AppState.Deposit` | tezca-relay/src/api.rs:84-130 | which status is answered; only an accepted deposit appends, counts in both counters and wakes the registered channel |
| `RelayService.AppState.RemoveMailbox` | tezca-relay/src/api.rs:167-169 | removes the mailbox and hands on its byte count, which is subtracted after the lock |
| `RelayService.AppState.SubtractDeleted` | tezca-relay/src/api.rs:170-172 | the late subtraction of a delete |
| `RelayService.AppState.HandleAck` | tezca-relay/src/api.rs:283-299 | removes the first message with that id and its bytes, or changes nothing |
| `RelayService.AppState.CollectFrames` | tezca-relay/src/api.rs:214-232 | ends delivery exactly when the mailbox is gone or has another channel, otherwise yields the unsent ids in queue order |
| `RelayService.AppState.SweepMailbox` | tezca-relay/src/state.rs:129-142 | one mailbox's popping loop computes the swept mailbox and its dropped bytes |
| `RelayService.AppState.Sweep` | tezca-relay/src/state.rs:124-148 | the retained table and the global subtraction are those of the value model |
| `RelayWorld.BytesStep` | tezca-relay/src/api.rs:101-130 | every step keeps: each counter is the sum of its queued sizes, the global one the sum over mailboxes plus deletes under way |
| `RelayWorld.BytesAlways` | tezca-relay/src/api.rs:161-176 | so in every state of every run |
| `RelayWorld.CounterNeverWraps` | tezca-relay/src/api.rs:170-172 | no subtraction exceeds the global counter, and the counter is bounded |
| `RelayWorld.CounterExceedsTable` | tezca-relay/src/api.rs:167-176 | a run (fill, delete, fill again before the subtraction) takes the counter past what the table may hold |
| `RelayDelivery.AccountStep` | tezca-relay/src/api.rs:283-298 | every step keeps each accepted message queued or with exactly one fate |
| `RelayDelivery.RelayStepOk` | tezca-relay/src/api.rs:203-278 | every step keeps counters, accounting, delivery order and wake-ups together |
| `RelayDelivery.RelayAlways` | tezca-relay/src/api.rs:203-278 | so in every state of every run |
| `RelayDelivery.NoLostWakeup` | tezca-relay/src/api.rs:203-278 | a parked task whose channel is registered has sent all that is queued, or a wake is waiting in its channel |
| `RelayDelivery.SentOnceInOrder` | tezca-relay/src/api.rs:214-243 | ids sent on one connection are distinct and in the order of acceptance |
| `RelayDelivery.AcceptedIsAccounted` | tezca-relay/src/api.rs:120-129 | a message answered 202 is queued, acked, expired or gone with its mailbox, exactly one of them |
| `RelayDelivery.HistoryAlwaysExtends` | tezca-relay/src/api.rs:120-129 | acceptance order never changes and a fate is final |
| `RelayDelivery.ScanEndsReplaced` | tezca-relay/src/api.rs:214-232 | a scan ends the connection if and only if it was replaced or its mailbox is gone; otherwise it takes up exactly what is unsent |
| `RelayDelivery.ReplacedSendsNoMore` | tezca-relay/src/api.rs:216-224 | over every run a replaced connection sends at most what it had been handed by then |
| `Wakes.OwnStepLowers` | tezca-relay/src/api.rs:212-278 | every step a delivery task takes by itself lowers its work: wakes waiting, messages not handed, frames to send |
| `Wakes.TaskRests` | tezca-relay/src/api.rs:212-278 | so however all tasks interleave, without requests one task takes no more steps than its work |
| `Lifetimes.SweepKeepsExactly` | tezca-relay/src/state.rs:124-148 | in every reachable world a sweep keeps a mailbox if and only if now is at most its last activity plus the lifetime, and a message if and only if now is at most its deposit plus the lifetime; the rest in order |
| `Lifetimes.ExpiredOnlyLate` | tezca-relay/src/state.rs:129-138 | over every run a message is recorded as expired only by a sweep more than the lifetime after its deposit |
| `Lifetimes.ActivityKeepsMailbox` | tezca-relay/src/api.rs:196-297 | after a creation, deposit, subscription or ack the mailbox stays on every run that neither deletes it nor sweeps more than the lifetime later |
| `EndToEnd.NextFrame` | tezca-core/src/relay_client/mod.rs:970-1001 | the next frame a sole listener reads is a replay or exactly the next accepted message |
| `EndToEnd.LinkAlways` | tezca-core/src/relay_client/mod.rs:939-1001 | the link invariant holds in every state of every run of relay and one listener at a time |
| `EndToEnd.ExactlyOnceInOrder` | tezca-core/src/relay_client/mod.rs:507-551 | with one listener at a time: what is persisted is a repeat-free prefix of what the relay accepted, acked implies persisted, the rest is still queued |
| `EndToEnd.ListenerDrains` | tezca-core/src/relay_client/mod.rs:970-1001 | a listener left to read serves each frame its connection sent, one round a frame, and then all are persisted and acked |
| `Overlap.CarefulIsExact` | tezca-core/src/relay_client/mod.rs:939-1001 | with any overlap of listeners, exactly-once delivery in every state of every run without a replay settled while another listener holds the message |
| `Overlap.HarmlessIff` | tezca-core/src/relay_client/mod.rs:970-1001 | a step on a connection that takes acks keeps delivery exactly once on every careful continuation if and only if it is no such settlement |
| `Overlap.SerialIsExact` | tezca-core/src/relay_client/mod.rs:939-1001 | starts after earlier listeners have ended leave no such settlement, so delivery is exactly once |
| `Overlap.OverlapFails` | tezca-core/src/relay_client/mod.rs:195-211 | a run with an overlapping start on which a message is acked that no listener has persisted |
| `Overlap.ExactlyOnceIff` | tezca-core/src/relay_client/mod.rs:195-211 | exactly-once delivery on every run if and only if starts do not overlap running listeners |
| `Limits.SourceLimiter.constructor` | tezca-relay/src/limits.rs:90-100 | an empty table with the configured limits and bound |
| `Limits.SourceLimiter.AdmitRequest` | tezca-relay/src/limits.rs:110-128 | the new map and the verdict are those of the value model; the bound is kept |
| `Limits.SourceLimiter.Prune` | tezca-relay/src/limits.rs:146-151 | keeps exactly the windows touched within the idle time |
| `Limits.BoxLimiter.constructor` | tezca-relay/src/limits.rs:164-171 | an empty table with the configured limits |
| `Limits.BoxLimiter.AdmitRequest` | tezca-relay/src/limits.rs:173-183 | the new map and the verdict are those of the value model |
| `Limits.BoxLimiter.Prune` | tezca-relay/src/limits.rs:197-202 | keeps exactly the windows touched within the idle time |
| `Limits.BoxLimiter.Forget` | tezca-relay/src/limits.rs:209-211 | drops one mailbox's window |
| `Limits.AdmitKeepsBound` | tezca-relay/src/limits.rs:115-123 | the source table never exceeds its bound |
| `Limits.ShedOnlyWhenBusy` | tezca-relay/src/limits.rs:115-123 | a request is shed only while the table is full of keys all active within the idle time |
| `Limits.PruneAgrees` | tezca-relay/src/limits.rs:146-151 | a prune with an old clock reading forgets only windows whose minute is over |
| `Limits.EnterAgrees` | tezca-relay/src/limits.rs:61-73 | a window's verdict is that of the counter for its key, slot and minute |
| `Limits.StepAgrees` | tezca-relay/src/limits.rs:110-128 | so for requests, prunes and forgets, shed requests apart |
| `Limits.LimiterRefines` | tezca-relay/src/limits.rs:110-152 | over every run on whose clocks no minute is entered twice or lasts the idle time, the pruned map gives the verdicts of the unpruned counters, shed requests apart |
| `Limits.AdmittedExactly` | tezca-relay/src/limits.rs:61-73 | a request not shed is admitted exactly when fewer than its limit were admitted for its own key, slot and minute since the key was last forgotten |
| `Limits.OrdinaryIsTimely` | tezca-relay/src/limits.rs:20-26 | an idle time of a minute and a system clock that keeps up with the monotonic one meet that condition |
| `Limits.LongMinuteFails` | tezca-relay/src/limits.rs:146-151 | for all readings in one minute the idle time apart, a prune between two requests lets both past a limit of one |
| `Limits.ReturnFails` | tezca-relay/src/limits.rs:61-73 | for all readings that leave a minute and come back, the count starts over and two requests pass a limit of one |
| `Limits.ShortIdleFails` | tezca-relay/src/limits.rs:146-151 | for every idle time below a minute a run lets two requests past a limit of one |
| `Admission.AcceptedExactly` | tezca-relay/src/api.rs:84-130 | with the limiters in front: a deposit is accepted if and only if shape, envelope, mailbox, room, no shedding, and fewer than the limit admitted this minute for its source and its mailbox; then it is queued last with its stamp |
| `Admission.MailboxRateHolds` | tezca-relay/src/api.rs:105-107 | over every run of relay and limiters, deposits accepted for a mailbox in one minute since it was last forgotten never exceed its limit |
| `Admission.SourceRateHolds` | tezca-relay/src/api.rs:93-95 | nor do those from one source in one minute its limit |
| `Flush.Store.constructor` | tezca-core/src/storage/mod.rs:729-771 | an empty message table |
| `Flush.Store.Insert` | tezca-core/src/storage/mod.rs:729-771 | a row is appended in row order |
| `Flush.Store.MarkMessageSent` | tezca-core/src/storage/mod.rs:783-791 | exactly the row with that id gets the status sent, every other row is unchanged |
| `Flush.Store.ReadPendingChat` | tezca-core/src/storage/mod.rs:804-836 | the pending outgoing rows of one conversation in row order |
| `Flush.Store.FlushPending` | tezca-core/src/relay_client/mod.rs:453-500 | with distinct ids, exactly the pending outgoing rows of the conversation answered before the first transient failure become sent, and nothing else changes; the log gets the accepted ones |
| `Flush.PassMarksExactly` | tezca-core/src/relay_client/mod.rs:480-498 | the same of the pass as a function, by rank among the pending rows |
| `Flush.PassIsRun` | tezca-core/src/relay_client/mod.rs:480-498 | the pass the method computes is a run of the interleaved steps |
| `Flush.FlushStep` | tezca-core/src/relay_client/mod.rs:446-500 | every step of any sender or pass, in any conversation, keeps the flush invariant |
| `Flush.FlushAlways` | tezca-core/src/relay_client/mod.rs:446-500 | so over every run in which no pass is dropped between acceptance and mark |
| `Flush.ExactlyOncePrefix` | tezca-core/src/relay_client/mod.rs:446-500 | outgoing rows are a prefix marked sent, then pending ones, and accepted deposits are that prefix without the refused rows, in order, none twice |
| `Flush.CutDuplicates` | tezca-core/src/relay_client/mod.rs:964-967 | a pass dropped after acceptance and before the mark deposits the message twice |
| `Flush.CutIsHarmlessIff` | tezca-core/src/relay_client/mod.rs:479-498 | a dropped pass leads to no repeated deposit on any continuation if and only if it was not dropped between acceptance and mark |
| `Listeners.SyncState.constructor` | tezca-core/src/relay_client/mod.rs:122-125 | nothing listens and no generation is live |
| `Listeners.SyncState.SpawnConversation` | tezca-core/src/relay_client/mod.rs:169-185 | joins the live generation or starts one; a listened conversation is left alone |
| `Listeners.SyncState.TakeSync` | tezca-core/src/relay_client/mod.rs:195-203 | clears the set, takes the generation and hands on its tasks |
| `Listeners.ListenStep` | tezca-core/src/relay_client/mod.rs:169-211 | every step of any spawn, stop or task keeps the listener invariant |
| `Listeners.ListenAlways` | tezca-core/src/relay_client/mod.rs:169-211 | so over every run, with the listening set read off the run |
| `Listeners.ListeningExactly` | tezca-core/src/relay_client/mod.rs:169-211 | the set is the conversations spawned since the last stop, one live task each; every task of a generation whose stop returned was taken by it and has finished |
| `Listeners.NothingRunsWhenStopped` | tezca-core/src/relay_client/mod.rs:195-211 | with nothing live and every stop returned, no task runs |
| `Listeners.TwoRunOnlyDuringStop` | tezca-core/src/relay_client/mod.rs:163-211 | two running listeners of one conversation mean one of them is being stopped |
| `Listeners.OneRunsWhenSerial` | tezca-core/src/relay_client/mod.rs:169-211 | if nothing is spawned while a stop is under way, at most one task of a conversation runs |
| `Engine.Conversation.constructor` | tezca-core/src/storage/mod.rs:619-645 | a conversation starts from its stored row |
| `Engine.Conversation.MarkHelloSeen` | tezca-core/src/relay_client/mod.rs:732-743 | says whether a hello is new; a new one is appended and the oldest of 512 leaves, a known one changes nothing |
| `Engine.Conversation.ProbeWindow` | tezca-core/src/relay_client/mod.rs:708-722 | the loop over the window leaves what the protocol's probe leaves |
| `Engine.Conversation.EnterRecoveryGen` | tezca-core/src/relay_client/mod.rs:678-728 | routes, stored numbers and relay are those of the protocol; a refusal changes nothing |
| `Engine.Conversation.RecoverFromLoss` | tezca-core/src/relay_client/mod.rs:619-670 | moves if and only if granted, fewer than three probes unanswered and the generations less than four apart, and only then counts a cycle |
| `Engine.Conversation.StartRotation` | tezca-core/src/relay_client/mod.rs:795-828 | the offerer's half of the first leg |
| `Engine.Conversation.HandleRecoveryHello` | tezca-core/src/relay_client/mod.rs:749-789 | the protocol's reaction to a hello; re-subscribes if and only if it is new, higher and the own inbox granted, and then to that inbox |
| `Engine.Conversation.HandleRotation` | tezca-core/src/relay_client/mod.rs:838-892 | the protocol's reaction to a leg; re-subscribes if and only if waiting or granted a fresh inbox, and to which |
| `Engine.Conversation.HandleFrame` | tezca-core/src/relay_client/mod.rs:507-551 | dispatch of one decrypted frame, and exactly when it re-subscribes |
| `Generations.GenerationStep` | tezca-core/src/relay_client/mod.rs:642-727 | every step keeps peer ≤ own ≤ peer + W, lowers no number, and bounds recorded and announced generations |
| `Generations.GenerationsAlways` | tezca-core/src/recovery.rs:151-167 | so over every run: a recorded peer generation is at most the stored one, or one above it once attempts may be cut off |
| `Generations.CutOffRunsAhead` | tezca-core/src/relay_client/mod.rs:1020-1023 | a run with one cut-off attempt reaches the one above |
| `Generations.StepWithoutContact` | tezca-core/src/relay_client/mod.rs:619-694 | without a verified hello a step changes the own generation or the cycle count exactly when it completes an attempt |
| `Generations.BumpsBeforeRepair` | tezca-core/src/recovery.rs:165-167 | without a hello, at most four bumps over all process lives, one for each completed attempt |
| `Generations.CyclesBeforeRepair` | tezca-core/src/recovery.rs:177-197 | without a hello, at most three completed attempts in one life, and three exhaust |
| `Generations.GivesUpExactly` | tezca-core/src/relay_client/mod.rs:642-655 | an attempt changes something if and only if the inbox is granted, fewer than three probes unanswered and the generations less than four apart |
| `Generations.ThreeAttemptsPerLife` | tezca-core/src/recovery.rs:62-64 | from pairing, in one life without contact, at most three completed attempts |
| `Generations.FourAttemptsInAll` | tezca-core/src/recovery.rs:57-60 | from pairing, over all lives without contact, at most four |
| `Generations.BoundsReached` | tezca-core/src/recovery.rs:165-197 | runs reach both bounds, and then no attempt changes anything whatever is granted |
| `Mail.EnterDid` | tezca-core/src/relay_client/mod.rs:678-728 | entering a generation moves the routes and leaves at most one hello more in each of the other side's inboxes, in every one whose leg was granted |
| `Mail.HandleDid` | tezca-core/src/relay_client/mod.rs:749-892 | one handled frame keeps the order of every queue, and appends one frame to the other side's inboxes or deletes one inbox at most |
| `Mail.LegDeletes` | tezca-core/src/relay_client/mod.rs:838-892 | a leg deletes the inbox a waiting party stored, or the one an answering party reads, if and only if granted, and no other |
| `Mail.ProbeReaches` | tezca-core/src/recovery.rs:144-160 | the announcement in the one inbox being read leads to its generation, as long as every lower one queued there leads on |
| `Mail.FullProbeReaches` | tezca-core/src/recovery.rs:144-146 | a probe in every inbox on the way leads the lower side to its generation |
| `Convergence.HelloAdopts` | tezca-core/src/relay_client/mod.rs:762-780 | a new hello of a higher generation moves both routes to it and announces it |
| `Convergence.CalmStep` | tezca-core/src/relay_client/mod.rs:619-892 | every delivery with the grants it needs, chat, attempt of the lower side or loss of the inbox it leaves keeps the phase, where the lower side is going and the count of rotations started, tells whether it stays astray, and raises no potential but by chat |
| `Convergence.CalmRun` | tezca-core/src/relay_client/mod.rs:619-892 | so over every run: the lower side is astray at the end exactly when it was at the start and none of its attempts was granted before it was exhausted |
| `Convergence.DrainedMeans` | tezca-core/src/recovery.rs:144-160 | in every phase with nothing left to read, routes are crossed at the maximum if and only if the announcements lead there, the lower side is not astray, and at most one rotation was started |
| `Convergence.Converges` | tezca-core/src/relay_client/mod.rs:678-789 | from one side ahead and the other anywhere below, every calm run has bounded deliveries and ends crossed if and only if the lower side arrives, read off the start and the steps, and at most one rotation is started |
| `Convergence.LevelConverges` | tezca-core/src/relay_client/mod.rs:678-892 | from level generations the number of rotations started decides alone |
| `Convergence.ConvergesOnce` | tezca-core/src/relay_client/mod.rs:678-892 | with at most one announcement left for the offerer, arriving decides alone |
| `Outcomes.NoncesAlways` | tezca-core/src/relay_client/mod.rs:696-699 | over every run no nonce seen or queued will be drawn again |
| `Outcomes.TidyStep` | tezca-core/src/relay_client/mod.rs:619-892 | every step keeps hellos and legs in derived inboxes, legs naming minted ones, and only the offerer waiting |
| `Outcomes.NeverReadsProbe` | tezca-core/src/relay_client/mod.rs:944-955 | over every run a side on a live inbox of pairing or rotation keeps its generations and routes until that inbox is lost |
| `Outcomes.HellosStep` | tezca-core/src/relay_client/mod.rs:678-789 | every step but a cut-off attempt keeps one hello per generation and side, at most once in an inbox |
| `Outcomes.HellosAlways` | tezca-core/src/relay_client/mod.rs:678-789 | so over every run without cut-off attempts |
| `Outcomes.LegsStep` | tezca-core/src/relay_client/mod.rs:619-892 | every step but a cut-off attempt keeps legs in inboxes of generations both sides have reached, and a side ahead routed where it announced itself |
| `Outcomes.AheadStarts` | tezca-core/src/relay_client/mod.rs:619-892 | in every state of such a run, one side being ahead on a live inbox opens convergence, wherever the other is |
| `Outcomes.RecoveryConverges` | tezca-core/src/relay_client/mod.rs:619-892 | any run without cut-off attempts that leaves one side ahead on a live inbox, then any calm run: bounded deliveries, and crossed routes at that generation if and only if the other side arrives |
| `Outcomes.ProbeReadConverges` | tezca-core/src/recovery.rs:144-160 | once the announcement is in the inbox the lower side reads, with no leg in front and every lower one there leading on, every order of deliveries ends crossed at the maximum |
| `Outcomes.CatchesUp` | tezca-core/src/relay_client/mod.rs:657-670 | an attempt that catches up finds the other side routed at that generation with no leg of it about |
| `Outcomes.AttemptLands` | tezca-core/src/relay_client/mod.rs:657-670 | a full probe leads the other side all the way from wherever it may be |
| `Outcomes.AttemptConverges` | tezca-core/src/relay_client/mod.rs:619-892 | any run, then an attempt with a full probe that brings a side level or ahead, then any calm run: crossed routes if and only if the other side, if astray, came back by a granted attempt (a side left on an older inbox by a refused adoption apart) |
| `Outcomes.BothInboxesLost` | tezca-core/src/relay_client/mod.rs:619-892 | from pairing with both inboxes lost and one full probe: every calm run ends crossed at generation 1 if and only if one attempt of the other side was granted |
| `Rotation.RotationDrains` | tezca-core/src/relay_client/mod.rs:795-892 | what the offerer read and has queued is always all chat accepted at its derived inbox, then at its fresh one; it moves only with no chat left behind |
| `Rotation.RotationCompletes` | tezca-core/src/relay_client/mod.rs:795-892 | after one deposited start every calm run ends with both sides on fresh live inboxes, routes crossed if and only if no second start came before leg two |
| `Rotation.ChatBehindLegOne` | tezca-core/src/relay_client/mod.rs:887-889 | the responder loses exactly the chat queued behind the first leg |
| `Rotation.ReplyNeedsGrants` | tezca-core/src/relay_client/mod.rs:869-887 | the second leg reaches the offerer if and only if the fresh inbox was granted and the reply deposited |
| `Rotation.LateDeposit` | tezca-core/src/relay_client/mod.rs:466-482 | chat deposited after the hand-over to the route read before it is accepted if and only if that inbox still exists, and then no calm run reads it |
| `Rotation.RotationCleansUp` | tezca-core/src/relay_client/mod.rs:843-890 | after any calm run a side on a fresh inbox has left its derived one behind if and only if its deletion was refused, so a late deposit there is refused exactly when it was granted |
| `Failures.AdoptionNeedsInbox` | tezca-core/src/relay_client/mod.rs:771-780 | adoption stores the number always and moves the routes if and only if the own inbox was granted; otherwise the side is stuck |
| `Failures.RefusedAdoptionSticks` | tezca-core/src/relay_client/mod.rs:749-789 | over every run without loss of its inbox, higher announcement or leg for that side, the routes are never crossed |
| `Failures.LossAndAttemptEndIt` | tezca-core/src/relay_client/mod.rs:619-670 | after the loss of that inbox an attempt goes through and a full probe converges as ever, whichever side is then ahead |
| `Failures.MissedCopyStrands` | tezca-core/src/relay_client/mod.rs:708-722 | a run from pairing on which a probe that missed an inbox leaves the lower side behind with nothing to read |
| `Failures.LegAheadStrands` | tezca-core/src/relay_client/mod.rs:869-889 | a run from pairing on which the lower side reads a rotation leg in front of a full probe, deletes the inbox with it, and is left on a live fresh inbox |
| `Failures.TwoStartsReached` | tezca-core/src/relay_client/mod.rs:822-856 | a run from pairing with a cut-off attempt on which two rotations are started and the routes end uncrossed |
| `Base64Url.EncodeLoop` | tezca-core/examples/deposit_harness.rs:263-280 | the chunk loop computes the encoding |
| `Base64Url.DecodeLoop` | tezca-core/examples/deposit_harness.rs:282-315 | the chunk loop computes the decoding, on every text |
| `Base64Url.DecodeEncode` | tezca-core/examples/deposit_harness.rs:263-315 | decoding undoes encoding for every byte string |
| `Base64Url.EncodeInjective` | tezca-core/src/recovery.rs:110-128 | no two byte strings share a text |
| `Base64Url.EncodeDecode` | tezca-core/examples/deposit_harness.rs:282-315 | encoding undoes decoding exactly for texts without stray bits in the last letter |
| `Base64Url.MailboxIds` | tezca-relay/src/wire.rs:49-74 | 32 bytes give 43 letters that pass the shape check, and no two share an id |
| `DerivedIds.DeriveMailboxId` | tezca-core/src/recovery.rs:100-106 | the id is the encoded PRF of label, role and generation |
| `DerivedIds.InfoInjective` | tezca-core/src/recovery.rs:79-105 | role and generation can be read back from the PRF's input |
| `DerivedIds.InfoBytes` | tezca-core/src/recovery.rs:67-105 | the PRF's input byte by byte for each role |
| `DerivedIds.DerivedDistinct` | tezca-core/src/recovery.rs:100-128 | derived ids pass the relay's check and differ for all pairs of role and generation |
| `DerivedIds.HelloExact` | tezca-core/src/recovery.rs:33-55 | a hello parses exactly when it is the encoding of its generation and nonce |
| `Padding.NewProfile` | tezca-core/src/config.rs:160-167 | a profile exists exactly for non-empty sizes none below the header, and has exactly those sizes in ascending order |
| `Padding.ProfileDetermined` | tezca-core/src/config.rs:161-162 | sorting and deduplicating leaves no choice |
| `Padding.BucketFor` | tezca-core/src/config.rs:178-180 | the least bucket that holds the frame, or none when all are smaller |
| `Padding.IsBucket` | tezca-core/src/config.rs:184-186 | binary search answers membership |
| `Padding.LeastBucket` | tezca-core/src/config.rs:178-192 | some bucket fits exactly up to the largest, so encoding never lacks one |
| `Padding.Encode` | tezca-core/src/envelope/inner.rs:80-98 | succeeds exactly up to the maximum payload, padding to the least bucket; which error otherwise |
| `Padding.ParsesExactly` | tezca-core/src/envelope/inner.rs:115-143 | bytes parse to a frame exactly when they are that frame padded to one of the buckets |
| `Padding.RoundTrip` | tezca-core/src/envelope/inner.rs:80-143 | encode then parse is the identity |
| `Padding.Reencode` | tezca-core/src/envelope/inner.rs:80-143 | a parsed frame encodes no longer than before and parses again; to the same bytes exactly when the bucket was least |
| `Wire.Cursor.constructor` | tezca-core/src/pairing.rs:490-493 | a cursor at the start of the input |
| `Wire.Cursor.Take` | tezca-core/src/pairing.rs:496-507 | the next bytes, or nothing and no move; and what that means for the whole message |
| `Wire.Cursor.BytesField` | tezca-core/src/pairing.rs:531-534 | a length-prefixed field, and what it means for the whole message |
| `Wire.Writer.PutBytes` | tezca-core/src/pairing.rs:104-108 | appends a 16-bit length and the bytes |
| `Wire.ReadExact` | tezca-core/src/pairing.rs:490-535 | for every list of fields, reading finds exactly the values whose encoding stands there |
| `Pairing.EncodeMailboxUpdate` | tezca-core/src/pairing.rs:114-120 | version, relay and inbox as fields |
| `Pairing.ParseMailboxUpdate` | tezca-core/src/pairing.rs:123-134 | the parse of mailbox-update/1 and /3 on every input |
| `Pairing.UpdateExact` | tezca-core/src/pairing.rs:163-183 | it finds a hand-over exactly when the input is its encoding |
| `Pairing.UpdateRoundTrip` | tezca-core/src/pairing.rs:114-183 | encode then parse is the identity exactly for 43-byte inbox ids |
| `Pairing.EncodeHandoff` | tezca-core/src/pairing.rs:451-462 | version, relay, inbox and contribution as fields |
| `Pairing.ParseHandoff` | tezca-core/src/pairing.rs:467-484 | the parse of mailbox-update/2 on every input |
| `Pairing.HandoffExact` | tezca-core/src/pairing.rs:451-484 | it finds a hand-off exactly when the input is its encoding |
| `Pairing.EncodePairAck` | tezca-core/src/pairing.rs:402-418 | the fields with the proof computed over bundle and contribution |
| `Pairing.ParsePairAck` | tezca-core/src/pairing.rs:421-443 | the parse of pair-ack/2 on every input |
| `Pairing.AckExact` | tezca-core/src/pairing.rs:402-443 | it finds an ack exactly when the input is its encoding |
| `Bundles.Serialize` | tezca-core/src/pairing.rs:29-50 | writes the bundle's fields in order |
| `Bundles.Parse` | tezca-core/src/pairing.rs:52-102 | the parse of a bundle on every input |
| `Bundles.BundleRoundTrip` | tezca-core/src/pairing.rs:29-102 | serialize then parse is the identity exactly for device id 1, a kyber key, and no one-time id equal to the absent mark |
| `Bundles.BundleFaithful` | tezca-core/src/pairing.rs:52-102 | a parsed bundle came from its own fields; serializing it gives the input exactly when no key follows an absent id |
| `Offers.EncodeOffer` | tezca-core/src/pairing.rs:237-267 | the signed part followed by the signature over exactly it |
| `Offers.ParseOfferStructure` | tezca-core/src/pairing.rs:273-301 | the structural parse on every input, with the unsupported-version answer |
| `Offers.SignedBytesFaithful` | tezca-core/src/pairing.rs:273-317 | the bytes before the last 64 of a parsed offer are exactly the encoding of the fields returned |
| `Offers.OfferRoundTrip` | tezca-core/src/pairing.rs:237-301 | encode then parse is the identity |
| `Offers.JudgeExact` | tezca-core/src/pairing.rs:321-343 | the ttl bounds, and the saturating checks decide the integer rule except at the last second of the clock for a window past it |
| `Offers.JudgeMonotone` | tezca-core/src/pairing.rs:321-343 | as time passes the verdict only moves not yet valid, accepted, expired |
| `Offers.AcceptOffer` | tezca-core/src/pairing.rs:307-344 | an offer is taken exactly when its own bundle's key verifies the encoding of the fields taken, inside their window |
| `Layouts.UpdateLayout` | tezca-core/src/pairing.rs:110-134 | mailbox-update/1 and /3 byte by byte, with the exact lengths |
| `Layouts.HandoffLayout` | tezca-core/src/pairing.rs:451-484 | mailbox-update/2 byte by byte |
| `Layouts.AckLayout` | tezca-core/src/pairing.rs:402-443 | pair-ack/2 byte by byte |
| `Layouts.OfferLayout` | tezca-core/src/pairing.rs:237-256 | the signed part of an offer byte by byte |
| `Layouts.OfferTail` | tezca-core/src/pairing.rs:307-317 | the last 64 bytes are the signature, the rest the signed part |
| `Layouts.OfferWindow` | tezca-core/src/pairing.rs:321-343 | accepted exactly for a lifetime of one second to one day, from 300 seconds before issue to its end |
| `Layouts.BundleLayout` | tezca-core/src/pairing.rs:29-50 | a bundle byte by byte, with the mark of an absent one-time key |
| `Layouts.HelloLayout` | tezca-core/src/recovery.rs:33-55 | a hello byte by byte, and which inputs parse |
| `Layouts.FrameLayout` | tezca-core/src/envelope/inner.rs:80-98 | an inner frame byte by byte, with its type codes |
| `Layouts.EncodeLayout` | tezca-relay/src/wire.rs:45-68 | each letter of an encoding as an ASCII code, cut from 24-bit numbers |
| `Bytes.ToBeAt` | tezca-core/src/recovery.rs:40 | integers are written high byte first |
| `Bytes.Utf8Exact` | tezca-core/src/pairing.rs:58-59 | what passes the text test is exactly an encoding of Unicode scalar values |

## Left out

- libsignal, HMAC, signature and TLS internals: abstract functions with the assumptions above.
- SQL text, key handling and migrations: only the message table, the routes and the generations are kept.
- HTTP and WebSocket plumbing, flags, hardening: requests and their answers are step inputs.
- Back-off delays, v1 recovery, pairing listeners, the UniFFI layer and the Android app.
- The relay's delivery and ack frame layouts and the bytes of its admission test: constant offsets in short
  headers; the model keeps which deposits pass and which message a frame names.
- Reconnection of a subscriber that was replaced or whose mailbox was deleted: its task may park for as long as
  its socket is silent.
- Process death: decrypting and storing an incoming message are two writes, and the rotation map is in memory.
- Flush has one route; a pass that read it before a rotation moved it is in Rotation.LateDeposit.
- The requests of one handler run (own inbox, probe legs, stored numbers, reply, delete) are one atomic step of
  Recovery, where the source awaits between them; a run cut off in between is a step of its own.
- The key a source address hashes to, and the coarsening of IPv6 addresses: limiter keys are opaque.
- Which of several malformed-input messages is reported when more than one applies.
- Deserializing the identity key of an offer's bundle is part of the abstract signature check.
- 32-bit targets: the cursor's and the frame parser's checked additions cannot overflow here.
- Convergence.Converges: calm runs have no restart, no cut-off attempt and no loss of an inbox other than one
  the lower side is leaving; after a restart or another loss they apply again to the state reached.
- Outcomes.RecoveryConverges: generations below the last 32-bit value, where attempts would repeat one generation.
- EndToEnd.ExactlyOnceInOrder: assumes the mailbox is neither deleted nor expired from and that only this
  client's acks reach it.
- Engine.Conversation.HandleFrame: leaves out the mailbox-update/1 branch of v1 conversations and the flushes a
  handler triggers, which are steps of their own in Flush.
- Flush.Store.MarkMessageSent: the status update is written as a loop over the rows, where the source runs one
  SQL statement.
