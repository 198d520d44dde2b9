/**
 One conversation inbox end to end: the relay of RelayWorld, the messages on the wire, and the
 client's listener, which decrypts, persists and acks one message at a time and may be stopped,
 disconnected or restarted only between messages. Nothing here assumes acks or sends arrive.
 */
module EndToEnd {
  import opened Bytes
  import opened Base64Url
  import opened RelayTable
  import opened RelayWorld
  import opened RelayDelivery

  /** `read` counts the frames of connection `chan` the listener is done with. */
  datatype Listener =
    | Off
    | Reading(chan: Chan, read: nat)
    | Decrypted(chan: Chan, read: nat, msg: MsgId)
    | Settled(chan: Chan, read: nat, msg: MsgId)

  /** `ratchet` holds the ciphertexts already consumed: decrypting one again is a replay. */
  datatype Link = Link(
    w: World, box: string, listener: Listener, used: set<Chan>,
    ratchet: set<MsgId>, persisted: seq<MsgId>, acks: set<(Chan, MsgId)>)

  datatype Event =
    | Relay(step: Step)
    | Attach(chan: Chan)
    | Decrypt
    | Persist
    | SendAck(ok: bool)
    | Detach

  /** The mailbox is neither deleted nor expired from, and only this client's own acks reach it. */
  ghost predicate Undisturbed(cfg: Config, l: Link, s: Step) {
    match s
    case Remove(id) => id != l.box
    case Sweep(now) =>
      l.box in l.w.boxes ==>
        Popped(cfg, now, l.w.boxes[l.box].queue) == 0 && KeptBySweep(cfg, now, l.w.boxes[l.box])
    case Ack(chan, msg, _) => chan in l.w.subs && l.w.subs[chan].box == l.box ==> (chan, msg) in l.acks
    case _ => true
  }

  ghost predicate Possible(cfg: Config, l: Link, e: Event) {
    match e
    case Relay(s) => Enabled(l.w, s) && Undisturbed(cfg, l, s)
    case Attach(chan) => l.listener.Off? && chan in l.w.subs && l.w.subs[chan].box == l.box && chan !in l.used
    case Decrypt =>
      l.listener.Reading? && l.listener.chan in l.w.subs && l.listener.read < |l.w.subs[l.listener.chan].wire|
    case Persist => l.listener.Decrypted?
    case SendAck(_) => l.listener.Settled?
    case Detach => l.listener.Reading?
  }

  ghost function After(cfg: Config, l: Link, e: Event): Link
    requires Possible(cfg, l, e)
  {
    match e
    case Relay(s) =>
      l.(w := Apply(cfg, l.w, s), acks := if s.Ack? then l.acks - {(s.chan, s.msg)} else l.acks)
    case Attach(chan) => l.(listener := Reading(chan, 0), used := l.used + {chan})
    case Decrypt =>
      var Reading(chan, read) := l.listener;
      var msg := l.w.subs[chan].wire[read];
      if msg in l.ratchet then l.(listener := Settled(chan, read, msg))
      else l.(listener := Decrypted(chan, read, msg), ratchet := l.ratchet + {msg})
    case Persist =>
      var Decrypted(chan, read, msg) := l.listener;
      l.(listener := Settled(chan, read, msg), persisted := l.persisted + [msg])
    case SendAck(ok) =>
      var Settled(chan, read, msg) := l.listener;
      l.(listener := Reading(chan, read + 1), acks := if ok then l.acks + {(chan, msg)} else l.acks)
    case Detach => l.(listener := Off)
  }

  ghost predicate Reachable(cfg: Config, w: World) {
    exists trace :: Run(cfg, trace) && w == trace[|trace| - 1]
  }

  /** A paired inbox nobody has deposited into, on a relay in any reachable state. */
  ghost predicate Fresh(cfg: Config, l: Link) {
    && Reachable(cfg, l.w)
    && l.box in l.w.boxes && LogOf(l.w.hist, l.box) == []
    && l.listener.Off? && l.used == {} && l.ratchet == {} && l.persisted == [] && l.acks == {}
  }

  ghost predicate Linked(cfg: Config, l: Link, l': Link) {
    exists e :: Possible(cfg, l, e) && l' == After(cfg, l, e)
  }

  ghost predicate LinkRun(cfg: Config, trace: seq<Link>) {
    && trace != [] && Fresh(cfg, trace[0])
    && forall i :: 0 <= i < |trace| - 1 ==> Linked(cfg, trace[i], trace[i + 1])
  }

  // The invariant.

  predicate IsPrefix(a: seq<MsgId>, b: seq<MsgId>) { |a| <= |b| && a == b[..|a|] }

  ghost predicate ListenerOk(l: Link) {
    l.listener.Off? ||
    (&& l.listener.chan in l.w.subs
     && l.w.subs[l.listener.chan].box == l.box
     && var wire := l.w.subs[l.listener.chan].wire;
       && l.listener.read <= |wire|
       && (forall k :: 0 <= k < l.listener.read ==> wire[k] in l.persisted)
       && (l.listener.Settled? ==> l.listener.msg in l.persisted)
       && (l.listener.Decrypted? || l.listener.Settled? ==>
            l.listener.read < |wire| && wire[l.listener.read] == l.listener.msg))
  }

  ghost predicate RatchetOk(l: Link) {
    if l.listener.Decrypted? then
      && l.ratchet == (set id | id in l.persisted) + {l.listener.msg}
      && l.listener.msg !in l.persisted
      && IsPrefix(l.persisted + [l.listener.msg], LogOf(l.w.hist, l.box))
    else l.ratchet == set id | id in l.persisted
  }

  ghost predicate LinkOk(cfg: Config, l: Link) {
    && RelayOk(cfg, l.w)
    && l.box in l.w.boxes
    && IsPrefix(l.persisted, LogOf(l.w.hist, l.box))
    && (forall id :: Belongs(l.w.hist, id, l.box) && Fated(l.w.hist, id) ==> id in l.persisted)
    && (forall p :: p in l.acks ==> p.1 in l.persisted)
    && ListenerOk(l)
    && RatchetOk(l)
  }

  // Relay steps.

  lemma StepKeepsBox(cfg: Config, l: Link, s: Step)
    requires l.box in l.w.boxes && Enabled(l.w, s) && Undisturbed(cfg, l, s)
    ensures l.box in Apply(cfg, l.w, s).boxes
  {
    hide MailboxIdShapeOk, Admissible, PoppedIds, QueueIds, SweptBytes, SweptMailbox, Unsent;
  }

  lemma StepGrowsWire(cfg: Config, w: World, s: Step, c: Chan)
    requires Enabled(w, s) && c in w.subs
    ensures c in Apply(cfg, w, s).subs
    ensures Apply(cfg, w, s).subs[c].box == w.subs[c].box
    ensures IsPrefix(w.subs[c].wire, Apply(cfg, w, s).subs[c].wire)
  {
    hide MailboxIdShapeOk, Admissible, PoppedIds, QueueIds, SweptBytes, SweptTable, Unsent, DepositStatus;
    var w' := Apply(cfg, w, s);
    if w'.subs[c].wire != w.subs[c].wire {
      assert w'.subs[c].wire[..|w.subs[c].wire|] == w.subs[c].wire;
    }
  }

  lemma StepGrowsLog(cfg: Config, w: World, s: Step, box: string)
    requires Enabled(w, s)
    ensures IsPrefix(LogOf(w.hist, box), LogOf(Apply(cfg, w, s).hist, box))
    ensures forall id :: Belongs(w.hist, id, box) ==> Belongs(Apply(cfg, w, s).hist, id, box)
  {
    hide MailboxIdShapeOk, Admissible, PoppedIds, QueueIds, SweptBytes, SweptTable, Unsent, DepositStatus;
  }

  /** In an undisturbed mailbox only an ack the client sent gives a message a fate. */
  lemma StepFates(cfg: Config, l: Link, s: Step, id: MsgId)
    requires RelayOk(cfg, l.w) && l.box in l.w.boxes && Enabled(l.w, s) && Undisturbed(cfg, l, s)
    requires Belongs(Apply(cfg, l.w, s).hist, id, l.box) && Fated(Apply(cfg, l.w, s).hist, id)
    ensures Belongs(l.w.hist, id, l.box)
    ensures Fated(l.w.hist, id) || (s.Ack? && (s.chan, s.msg) in l.acks && s.msg == id)
  {
    hide MailboxIdShapeOk, Admissible, SweptBytes, SweptTable, Unsent, BytesOk, DeliveryOk, HistoryOk, QueueOk;
    hide QueueIds, PoppedIds, Popped, Find, KeptBySweep, HasRoom, Put;
    var w, w' := l.w, Apply(cfg, l.w, s);
    match s
    case Deposit(_, _, msg, _, _, _, _) =>
      FatedAreOld(w.hist, w.boxes, msg);
    case Remove(b) =>
      if b in w.boxes {
        QueuedElsewhere(w.hist, w.boxes, b, l.box);
      }
    case Sweep(now) =>
      PoppedElsewhere(cfg, w.hist, w.boxes, now, l.box);
    case Ack(chan, msg, _) =>
      var b := w.subs[chan].box;
      if b in w.boxes && b != l.box {
        QueuedElsewhere(w.hist, w.boxes, b, l.box);
        FoundIsQueued(w.boxes[b].queue, msg);
      }
    case _ =>
  }

  lemma FoundIsQueued(q: seq<Queued>, msg: MsgId)
    ensures Find(q, msg) < |q| ==> msg in QueueIds(q)
  {}

  lemma QueuedElsewhere(h: History, t: Table, b: string, box: string)
    requires AccountOk(h, t) && b in t && b != box
    ensures forall id :: id in QueueIds(t[b].queue) ==> !Belongs(h, id, box)
  {
    hide HistoryOk;
    assert QueueOk(h, b, t[b].queue);
  }

  lemma PoppedElsewhere(cfg: Config, h: History, t: Table, now: Instant, box: string)
    requires AccountOk(h, t) && (box in t ==> Popped(cfg, now, t[box].queue) == 0)
    ensures forall id :: id in PoppedIds(cfg, now, t) ==> !Belongs(h, id, box)
  {
    hide HistoryOk;
    forall id | id in PoppedIds(cfg, now, t)
      ensures !Belongs(h, id, box)
    {
      var b, i :| b in t && 0 <= i < Popped(cfg, now, t[b].queue) && t[b].queue[i].id == id;
      assert QueueOk(h, b, t[b].queue);
    }
  }

  lemma FatedAreOld(h: History, t: Table, msg: MsgId)
    requires AccountOk(h, t) && msg !in h.slots
    ensures !Fated(h, msg)
  {}

  lemma LinkRelayStep(cfg: Config, l: Link, s: Step)
    requires LinkOk(cfg, l) && Enabled(l.w, s) && Undisturbed(cfg, l, s)
    ensures LinkOk(cfg, After(cfg, l, Relay(s)))
  {
    hide RelayOk, Apply, Enabled, Undisturbed, Belongs, Fated, IsPrefix, ListenerOk, RatchetOk, LogOf;
    var l' := After(cfg, l, Relay(s));
    RelayStepOk(cfg, l.w, s);
    StepKeepsBox(cfg, l, s);
    StepGrowsLog(cfg, l.w, s, l.box);
    PrefixTransitive(l.persisted, LogOf(l.w.hist, l.box), LogOf(l'.w.hist, l.box));
    FatesKeep(cfg, l, s);
    ListenerKeeps(cfg, l, s);
  }

  lemma FatesKeep(cfg: Config, l: Link, s: Step)
    requires LinkOk(cfg, l) && Enabled(l.w, s) && Undisturbed(cfg, l, s)
    ensures forall id :: Belongs(Apply(cfg, l.w, s).hist, id, l.box) && Fated(Apply(cfg, l.w, s).hist, id) ==>
      id in l.persisted
  {
    hide RelayOk, Apply, Enabled, Undisturbed, Belongs, Fated, IsPrefix, ListenerOk, RatchetOk;
    forall id | Belongs(Apply(cfg, l.w, s).hist, id, l.box) && Fated(Apply(cfg, l.w, s).hist, id)
      ensures id in l.persisted
    {
      StepFates(cfg, l, s, id);
    }
  }

  lemma ListenerKeeps(cfg: Config, l: Link, s: Step)
    requires ListenerOk(l) && RatchetOk(l) && Enabled(l.w, s) && Undisturbed(cfg, l, s)
    ensures ListenerOk(After(cfg, l, Relay(s))) && RatchetOk(After(cfg, l, Relay(s)))
  {
    var l' := After(cfg, l, Relay(s));
    hide Apply, Enabled, Undisturbed;
    if !l.listener.Off? {
      StepGrowsWire(cfg, l.w, s, l.listener.chan);
      var wire, wire' := l.w.subs[l.listener.chan].wire, l'.w.subs[l.listener.chan].wire;
      assert forall k :: 0 <= k < |wire| ==> wire'[k] == wire[k];
    }
    if l.listener.Decrypted? {
      StepGrowsLog(cfg, l.w, s, l.box);
      PrefixTransitive(l.persisted + [l.listener.msg], LogOf(l.w.hist, l.box), LogOf(l'.w.hist, l.box));
    }
  }

  lemma PrefixTransitive(a: seq<MsgId>, b: seq<MsgId>, c: seq<MsgId>)
    requires IsPrefix(a, b) && IsPrefix(b, c)
    ensures IsPrefix(a, c)
  {
    assert c[..|b|][..|a|] == c[..|a|];
  }

  // Client steps.

  /** The next frame is either a replay or exactly the next accepted message. */
  lemma NextFrame(cfg: Config, l: Link)
    requires LinkOk(cfg, l) && Possible(cfg, l, Decrypt)
    requires l.w.subs[l.listener.chan].wire[l.listener.read] !in l.persisted
    ensures IsPrefix(l.persisted + [l.w.subs[l.listener.chan].wire[l.listener.read]], LogOf(l.w.hist, l.box))
  {
    hide BytesOk, QueueOk, WakeOk;
    var w, h, box := l.w, l.w.hist, l.box;
    var s := w.subs[l.listener.chan];
    var log, n, msg := LogOf(h, box), |l.persisted|, s.wire[l.listener.read];
    assert SubscriberOk(h, w.boxes, s);
    assert Handed(s)[l.listener.read] == msg && Belongs(h, msg, box);
    var p := h.slots[msg].pos;
    assert InLog(h, box, p) && log[p] == msg;
    assert forall k :: 0 <= k < n ==> log[k] in l.persisted;
    EarlierWasHanded(cfg, l, n);
    assert log[..n + 1] == log[..n] + [msg];
  }

  lemma EarlierWasHanded(cfg: Config, l: Link, n: nat)
    requires LinkOk(cfg, l) && l.listener.Reading? && l.listener.read < |l.w.subs[l.listener.chan].wire|
    requires n == |l.persisted| < |LogOf(l.w.hist, l.box)|
    ensures Pos(l.w.hist, l.w.subs[l.listener.chan].wire[l.listener.read]) <= n
  {
    hide BytesOk, QueueOk, WakeOk;
    var w, h, box := l.w, l.w.hist, l.box;
    var s := w.subs[l.listener.chan];
    var y, msg := LogOf(h, box)[n], s.wire[l.listener.read];
    assert InLog(h, box, n) && Belongs(h, y, box) && Pos(h, y) == n;
    LogDistinct(h, box, l.persisted);
    assert InQueue(w.boxes, box, y);
    var i :| 0 <= i < |w.boxes[box].queue| && w.boxes[box].queue[i].id == y;
    assert SubscriberOk(h, w.boxes, s);
    var ids := Handed(s);
    assert ids[l.listener.read] == msg;
    assert forall k :: 0 <= k < l.listener.read ==> ids[k] in l.persisted;
    if y in ids {
      var k :| 0 <= k < |ids| && ids[k] == y;
      assert k >= l.listener.read;
    }
  }

  lemma LogDistinct(h: History, box: string, prefix: seq<MsgId>)
    requires HistoryOk(h) && IsPrefix(prefix, LogOf(h, box)) && |prefix| < |LogOf(h, box)|
    ensures LogOf(h, box)[|prefix|] !in prefix
  {
    var log := LogOf(h, box);
    forall k | 0 <= k < |prefix|
      ensures prefix[k] != log[|prefix|]
    {
      assert InLog(h, box, k) && InLog(h, box, |prefix|);
      assert prefix[k] == log[k];
      assert Pos(h, log[k]) == k && Pos(h, log[|prefix|]) == |prefix|;
    }
  }

  lemma LinkClientStep(cfg: Config, l: Link, e: Event)
    requires LinkOk(cfg, l) && Possible(cfg, l, e) && !e.Relay?
    ensures LinkOk(cfg, After(cfg, l, e))
  {
    hide RelayOk, Belongs, Fated, Apply, Enabled;
    var l' := After(cfg, l, e);
    match e
    case Decrypt =>
      var msg := l.w.subs[l.listener.chan].wire[l.listener.read];
      if msg !in l.ratchet {
        NextFrame(cfg, l);
      }
    case Persist =>
      assert (set id | id in l'.persisted) == (set id | id in l.persisted) + {l.listener.msg};
      assert forall id :: id in l.persisted ==> id in l'.persisted;
    case SendAck(_) =>
    case Attach(_) =>
    case Detach =>
  }

  lemma {:induction false} LinkAlways(cfg: Config, trace: seq<Link>)
    requires LinkRun(cfg, trace)
    ensures forall i :: 0 <= i < |trace| ==> LinkOk(cfg, trace[i])
  {
    hide LinkOk, Possible, After, Fresh;
    FreshOk(cfg, trace[0]);
    var n := 0;
    while n < |trace| - 1
      invariant 0 <= n < |trace|
      invariant forall i :: 0 <= i <= n ==> LinkOk(cfg, trace[i])
    {
      assert Linked(cfg, trace[n], trace[n + 1]);
      var e :| Possible(cfg, trace[n], e) && trace[n + 1] == After(cfg, trace[n], e);
      LinkStepOk(cfg, trace[n], e);
      n := n + 1;
    }
  }

  lemma LinkStepOk(cfg: Config, l: Link, e: Event)
    requires LinkOk(cfg, l) && Possible(cfg, l, e)
    ensures LinkOk(cfg, After(cfg, l, e))
  {
    hide LinkOk, After;
    if e.Relay? {
      LinkRelayStep(cfg, l, e.step);
    } else {
      LinkClientStep(cfg, l, e);
    }
  }

  lemma FreshOk(cfg: Config, l: Link)
    requires Fresh(cfg, l)
    ensures LinkOk(cfg, l)
  {
    hide Reachable, BytesOk, DeliveryOk, QueueOk, HistoryOk;
    ReachableOk(cfg, l.w);
    EmptyLog(l.w.hist, l.box);
  }

  lemma ReachableOk(cfg: Config, w: World)
    requires Reachable(cfg, w)
    ensures RelayOk(cfg, w)
  {
    hide RelayOk, Next;
    var trace :| Run(cfg, trace) && w == trace[|trace| - 1];
    RelayAlways(cfg, trace);
  }

  lemma EmptyLog(h: History, box: string)
    requires HistoryOk(h) && LogOf(h, box) == []
    ensures forall id :: !Belongs(h, id, box)
  {
    assert forall id :: id in h.slots ==> InLog(h, h.slots[id].box, h.slots[id].pos);
  }

  /**
   What the client has persisted is an initial part of what the relay accepted for it, without repeats; the
   relay forgot only what was persisted; and what is not yet persisted is still queued.
   */
  ghost predicate ExactlyOnce(l: Link) {
    var log := LogOf(l.w.hist, l.box);
    && IsPrefix(l.persisted, log)
    && (forall i, j :: 0 <= i < j < |l.persisted| ==> l.persisted[i] != l.persisted[j])
    && (forall i :: 0 <= i < |log| ==> log[i] in l.w.hist.acked ==> log[i] in l.persisted)
    && (forall i :: |l.persisted| <= i < |log| ==> InQueue(l.w.boxes, l.box, log[i]))
  }

  /**
   Exactly once, in order, nothing lost, in every state of every run of the relay and one listener at a time.
   */
  lemma ExactlyOnceInOrder(cfg: Config, trace: seq<Link>, n: nat)
    requires LinkRun(cfg, trace) && n < |trace|
    ensures ExactlyOnce(trace[n])
  {
    hide LinkOk;
    LinkAlways(cfg, trace);
    LinkGuarantee(cfg, trace[n]);
  }

  lemma LinkGuarantee(cfg: Config, l: Link)
    requires LinkOk(cfg, l)
    ensures ExactlyOnce(l)
  {
    hide BytesOk, DeliveryOk, RatchetOk, ListenerOk;
    var h, log := l.w.hist, LogOf(l.w.hist, l.box);
    assert forall i :: 0 <= i < |log| ==> InLog(h, l.box, i) && Belongs(h, log[i], l.box) && Pos(h, log[i]) == i;
    forall i | |l.persisted| <= i < |log|
      ensures InQueue(l.w.boxes, l.box, log[i])
    {
      assert forall k :: 0 <= k < |l.persisted| ==> l.persisted[k] == log[k] && Pos(h, l.persisted[k]) == k;
      assert log[i] !in l.persisted;
    }
  }

  // The listener gets through what it was sent.

  /** Decrypt, persist what is new, and ack with success: one frame's worth of client events. */
  ghost predicate Serves(cfg: Config, l: Link, l': Link) {
    && Possible(cfg, l, Decrypt)
    && var l1 := After(cfg, l, Decrypt);
    && var l2 := if l1.listener.Decrypted? then After(cfg, l1, Persist) else l1;
    && Possible(cfg, l2, SendAck(true)) && l' == After(cfg, l2, SendAck(true))
  }

  lemma ServeOne(cfg: Config, l: Link) returns (l': Link)
    requires LinkOk(cfg, l) && Possible(cfg, l, Decrypt)
    ensures Serves(cfg, l, l') && LinkOk(cfg, l') && l'.w == l.w && l'.box == l.box
    ensures var msg := l.w.subs[l.listener.chan].wire[l.listener.read];
      && l'.listener == Reading(l.listener.chan, l.listener.read + 1)
      && msg in l'.persisted && l'.acks == l.acks + {(l.listener.chan, msg)}
  {
    hide LinkOk, Apply, Enabled, Undisturbed;
    var l1 := After(cfg, l, Decrypt);
    LinkStepOk(cfg, l, Decrypt);
    var l2 := l1;
    if l1.listener.Decrypted? {
      l2 := After(cfg, l1, Persist);
      LinkStepOk(cfg, l1, Persist);
    }
    SettledIsStored(cfg, l2);
    l' := After(cfg, l2, SendAck(true));
    LinkStepOk(cfg, l2, SendAck(true));
  }

  lemma SettledIsStored(cfg: Config, l: Link)
    requires LinkOk(cfg, l) && l.listener.Settled?
    ensures l.listener.msg in l.persisted
  {
    hide RelayOk, RatchetOk, Belongs, Fated, IsPrefix;
  }

  /**
   Left to read, a listener serves every frame its connection has sent, in as many rounds as there are frames: then
   all of them are persisted and acked.
   */
  lemma {:induction false} ListenerDrains(cfg: Config, l: Link) returns (rounds: seq<Link>)
    requires LinkOk(cfg, l) && l.listener.Reading?
    ensures l.listener.chan in l.w.subs && |rounds| > 0 && rounds[0] == l
    ensures forall i :: 0 <= i < |rounds| - 1 ==> Serves(cfg, rounds[i], rounds[i + 1])
    ensures var wire, l' := l.w.subs[l.listener.chan].wire, rounds[|rounds| - 1];
      && |rounds| == |wire| - l.listener.read + 1 && l'.w == l.w && l'.listener == Reading(l.listener.chan, |wire|)
      && (forall k :: 0 <= k < |wire| ==> wire[k] in l'.persisted)
      && (forall k :: l.listener.read <= k < |wire| ==> (l.listener.chan, wire[k]) in l'.acks)
      && l.acks <= l'.acks
    decreases if l.listener.Reading? && l.listener.chan in l.w.subs then
                |l.w.subs[l.listener.chan].wire| - l.listener.read else 0
  {
    hide RelayOk, RatchetOk, Belongs, Fated, IsPrefix, Serves;
    assert ListenerOk(l);
    var wire := l.w.subs[l.listener.chan].wire;
    if l.listener.read == |wire| {
      rounds := [l];
    } else {
      assert Possible(cfg, l, Decrypt);
      var l1 := ServeOne(cfg, l);
      hide LinkOk;
      var rest := ListenerDrains(cfg, l1);
      rounds := [l] + rest;
    }
  }
}
