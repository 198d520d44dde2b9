/**
 The relay as a concurrent state machine. Every step is one stretch of code that runs under the
 table lock, or one action of a subscriber's delivery task between two of them; a run is any
 interleaving. The history records what happened to each accepted message and is read by no step.
 */
module RelayWorld {
  import opened Bytes
  import opened Base64Url
  import opened Sums
  import opened RelayTable

  /** Where a delivery task is: about to scan the queue, sending, in `select!`, draining acks, or returned. */
  datatype Phase = Collecting | Sending | Parked | Draining | Ended

  /** `wire` is everything sent on this connection, in order; `tokens` the wakes waiting in its channel. */
  datatype Subscriber = Subscriber(
    box: string, phase: Phase, sent: set<MsgId>, frames: seq<MsgId>, wire: seq<MsgId>, tokens: nat)

  datatype Slot = Slot(box: string, pos: nat)

  /** Per mailbox id, the accepted messages in order of acceptance; and how each one left its queue. */
  datatype History = History(
    log: map<string, seq<MsgId>>, slots: map<MsgId, Slot>,
    acked: set<MsgId>, expired: set<MsgId>, deleted: set<MsgId>)

  /** `deleting` holds the bytes of deletes that released the lock and have not yet subtracted. */
  datatype World = World(
    boxes: Table, globalBytes: int, deleting: seq<int>, clock: Instant,
    subs: map<Chan, Subscriber>, hist: History)

  const Start := World(map[], 0, [], 0, map[], History(map[], map[], {}, {}, {}))

  datatype Step =
    | Create(id: string, at: Instant)
    | PutBox(id: string, at: Instant)
    | Deposit(id: string, blob: seq<Byte>, msg: MsgId, bySource: bool, byBox: bool, t1: Instant, t2: Instant)
    | Remove(id: string)
    | Subtract(i: nat)
    | Sweep(now: Instant)
    | Register(chan: Chan, id: string, at: Instant)
    | Collect(chan: Chan)
    | SendFrame(chan: Chan, ok: bool)
    | WakeUp(chan: Chan)
    | Ack(chan: Chan, msg: MsgId, at: Instant)
    | Ignore(chan: Chan)
    | Drained(chan: Chan)
    | Close(chan: Chan)

  /**
   When a step may happen. Random ids are fresh and clock readings do not go back, except that a
   sweep may act on a reading taken before it got the lock.
   */
  predicate Enabled(w: World, s: Step) {
    match s
    case Create(id, at) => MailboxIdShapeOk(id) && id !in w.boxes && w.clock <= at
    case PutBox(_, at) => w.clock <= at
    case Deposit(_, _, msg, _, _, t1, t2) => msg !in w.hist.slots && w.clock <= t1 <= t2
    case Remove(_) => true
    case Subtract(i) => i < |w.deleting|
    case Sweep(_) => true
    case Register(chan, _, at) => chan !in w.subs && w.clock <= at
    case Collect(chan) => chan in w.subs && w.subs[chan].phase.Collecting?
    case SendFrame(chan, _) => chan in w.subs && w.subs[chan].phase.Sending?
    case WakeUp(chan) => chan in w.subs && w.subs[chan].phase.Parked? && w.subs[chan].tokens > 0
    case Ack(chan, _, at) =>
      chan in w.subs && (w.subs[chan].phase.Parked? || w.subs[chan].phase.Draining?) && w.clock <= at
    case Ignore(chan) => chan in w.subs && w.subs[chan].phase.Parked?
    case Drained(chan) => chan in w.subs && w.subs[chan].phase.Draining?
    case Close(chan) => chan in w.subs
  }

  function LogOf(h: History, box: string): seq<MsgId> { if box in h.log then h.log[box] else [] }

  function Record(h: History, box: string, msg: MsgId): History {
    h.(log := h.log[box := LogOf(h, box) + [msg]], slots := h.slots[msg := Slot(box, |LogOf(h, box)|)])
  }

  /** `notify.send(())`: ignored when the receiving task has returned. */
  function Notify(subs: map<Chan, Subscriber>, notify: Option<Chan>): map<Chan, Subscriber> {
    if notify.Some? && notify.value in subs && !subs[notify.value].phase.Ended?
    then subs[notify.value := subs[notify.value].(tokens := subs[notify.value].tokens + 1)]
    else subs
  }

  function QueueIds(q: seq<Queued>): set<MsgId> { set i | 0 <= i < |q| :: q[i].id }

  function PoppedIds(cfg: Config, now: Instant, t: Table): set<MsgId> {
    set b, i | b in t && 0 <= i < Popped(cfg, now, t[b].queue) :: t[b].queue[i].id
  }

  function DepositStep(cfg: Config, w: World, id: string, blob: seq<Byte>, msg: MsgId, t1: Instant, t2: Instant): World
    requires id in w.boxes
  {
    w.(boxes := w.boxes[id := Enqueue(w.boxes[id], msg, blob, t1, t2)],
       globalBytes := w.globalBytes + |blob|, clock := t2,
       subs := Notify(w.subs, w.boxes[id].notify), hist := Record(w.hist, id, msg))
  }

  /** DELETE up to the release of the lock. */
  function RemoveStep(w: World, id: string): World
    requires id in w.boxes
  {
    w.(boxes := w.boxes - {id}, deleting := w.deleting + [w.boxes[id].queuedBytes],
       hist := w.hist.(deleted := w.hist.deleted + QueueIds(w.boxes[id].queue)))
  }

  ghost function SweepStep(cfg: Config, w: World, now: Instant): World {
    w.(boxes := SweptTable(cfg, now, w.boxes), globalBytes := w.globalBytes - SweptBytes(cfg, now, w.boxes),
       clock := if now > w.clock then now else w.clock,
       hist := w.hist.(expired := w.hist.expired + PoppedIds(cfg, now, w.boxes)))
  }

  function RegisterStep(w: World, chan: Chan, id: string, at: Instant): World
    requires id in w.boxes
  {
    w.(boxes := w.boxes[id := w.boxes[id].(notify := Some(chan), lastActivity := Some(at))], clock := at,
       subs := w.subs[chan := Subscriber(id, Collecting, {}, [], [], 0)])
  }

  /** The scan under the lock at the top of the delivery loop. */
  function CollectStep(w: World, chan: Chan): World
    requires chan in w.subs
  {
    var s := w.subs[chan];
    var s' :=
      if s.box !in w.boxes || w.boxes[s.box].notify != Some(chan) then s.(phase := Ended)
      else
        var frames := Unsent(w.boxes[s.box].queue, s.sent);
        s.(frames := frames, phase := if frames == [] then Parked else Sending);
    w.(subs := w.subs[chan := s'])
  }

  function SendStep(w: World, chan: Chan, ok: bool): World
    requires chan in w.subs
  {
    var s := w.subs[chan];
    if !ok || s.frames == [] then w.(subs := w.subs[chan := s.(phase := Ended)])
    else
      w.(subs := w.subs[chan := s.(
        wire := s.wire + [s.frames[0]], sent := s.sent + {s.frames[0]}, frames := s.frames[1..],
        phase := if |s.frames| == 1 then Parked else Sending)])
  }

  function AckStep(w: World, chan: Chan, msg: MsgId, at: Instant): World
    requires chan in w.subs
  {
    var w1 := w.(subs := w.subs[chan := w.subs[chan].(phase := Draining)]);
    var box := w.subs[chan].box;
    if box in w.boxes && Find(w.boxes[box].queue, msg) < |w.boxes[box].queue| then
      var i := Find(w.boxes[box].queue, msg);
      w1.(boxes := w.boxes[box := Dequeue(w.boxes[box], i, at)],
          globalBytes := w.globalBytes - |w.boxes[box].queue[i].blob|, clock := at,
          hist := w.hist.(acked := w.hist.acked + {msg}))
    else w1.(clock := at)
  }

  function SetPhase(w: World, chan: Chan, phase: Phase): World
    requires chan in w.subs
  {
    w.(subs := w.subs[chan := w.subs[chan].(phase := phase)])
  }

  ghost function Apply(cfg: Config, w: World, s: Step): World
    requires Enabled(w, s)
  {
    match s
    case Create(id, at) =>
      if |w.boxes| >= cfg.maxMailboxes then w.(clock := at)
      else w.(boxes := CreateAt(w.boxes, id, at), clock := at)
    case PutBox(id, at) =>
      if MailboxIdShapeOk(id) then w.(boxes := Put(cfg, w.boxes, id, at).0, clock := at) else w.(clock := at)
    case Deposit(id, blob, msg, bySource, byBox, t1, t2) =>
      if DepositStatus(cfg, w.boxes, id, blob, bySource, byBox) == Accepted
      then DepositStep(cfg, w, id, blob, msg, t1, t2) else w
    case Remove(id) => if MailboxIdShapeOk(id) && id in w.boxes then RemoveStep(w, id) else w
    case Subtract(i) =>
      w.(globalBytes := w.globalBytes - w.deleting[i], deleting := w.deleting[..i] + w.deleting[i + 1..])
    case Sweep(now) => SweepStep(cfg, w, now)
    case Register(chan, id, at) => if id in w.boxes then RegisterStep(w, chan, id, at) else w
    case Collect(chan) => CollectStep(w, chan)
    case SendFrame(chan, ok) => SendStep(w, chan, ok)
    case WakeUp(chan) =>
      w.(subs := w.subs[chan := w.subs[chan].(phase := Collecting, tokens := w.subs[chan].tokens - 1)])
    case Ack(chan, msg, at) => AckStep(w, chan, msg, at)
    case Ignore(chan) => SetPhase(w, chan, Collecting)
    case Drained(chan) => SetPhase(w, chan, Collecting)
    case Close(chan) => SetPhase(w, chan, Ended)
  }

  ghost predicate Next(cfg: Config, w: World, w': World) {
    exists s :: Enabled(w, s) && w' == Apply(cfg, w, s)
  }

  /** `trace` is a run: each world is a step of the one before it. */
  ghost predicate Run(cfg: Config, trace: seq<World>) {
    && trace != [] && trace[0] == Start
    && forall i :: 0 <= i < |trace| - 1 ==> Next(cfg, trace[i], trace[i + 1])
  }

  // Byte conservation.

  ghost predicate BytesOk(cfg: Config, w: World) {
    && TableOk(cfg, w.clock, w.boxes)
    && w.globalBytes == TableBytes(w.boxes) + SumSeq(w.deleting)
    && forall i :: 0 <= i < |w.deleting| ==> 0 <= w.deleting[i] <= cfg.maxBytes
  }

  lemma TableOkLater(cfg: Config, clock: Instant, later: Instant, t: Table)
    requires TableOk(cfg, clock, t) && clock <= later
    ensures TableOk(cfg, later, t)
  {
    hide InAlphabet, SortedByDeposit, QueueBytes;
    forall id | id in t
      ensures MailboxOk(cfg, later, t[id])
    {
      MailboxOkLater(cfg, clock, later, t[id]);
    }
  }

  lemma TableOkUpdate(cfg: Config, clock: Instant, later: Instant, t: Table, id: string, mb: Mailbox)
    requires TableOk(cfg, clock, t) && clock <= later && MailboxOk(cfg, later, mb) && MailboxIdShapeOk(id)
    requires id in t || |t| < cfg.maxMailboxes
    ensures TableOk(cfg, later, t[id := mb])
  {
    hide MailboxIdShapeOk, MailboxOk;
    TableOkLater(cfg, clock, later, t);
    assert t[id := mb].Keys == t.Keys + {id};
  }

  lemma BytesCreate(cfg: Config, w: World, id: string, at: Instant)
    requires BytesOk(cfg, w) && MailboxIdShapeOk(id) && id !in w.boxes && w.clock <= at && |w.boxes| < cfg.maxMailboxes
    ensures BytesOk(cfg, w.(boxes := CreateAt(w.boxes, id, at), clock := at))
  {
    hide MailboxIdShapeOk;
    TableOkUpdate(cfg, w.clock, at, w.boxes, id, FreshMailbox(at));
    TableBytesUpdate(w.boxes, id, FreshMailbox(at));
  }

  lemma BytesDeposit(cfg: Config, w: World, id: string, blob: seq<Byte>, msg: MsgId, t1: Instant, t2: Instant)
    requires BytesOk(cfg, w) && id in w.boxes && HasRoom(cfg, w.boxes[id], |blob|) && w.clock <= t1 <= t2
    ensures BytesOk(cfg, DepositStep(cfg, w, id, blob, msg, t1, t2))
  {
    hide MailboxIdShapeOk, MailboxOk;
    EnqueueOk(cfg, w.clock, w.boxes[id], msg, blob, t1, t2);
    TableOkUpdate(cfg, w.clock, t2, w.boxes, id, Enqueue(w.boxes[id], msg, blob, t1, t2));
    TableBytesUpdate(w.boxes, id, Enqueue(w.boxes[id], msg, blob, t1, t2));
  }

  lemma BytesRemove(cfg: Config, w: World, id: string)
    requires BytesOk(cfg, w) && id in w.boxes
    ensures BytesOk(cfg, RemoveStep(w, id))
  {
    hide InAlphabet, SortedByDeposit, QueueBytes;
    assert MailboxOk(cfg, w.clock, w.boxes[id]);
    TableBytesRemove(w.boxes, id);
    SumSeqConcat(w.deleting, [w.boxes[id].queuedBytes]);
    assert (w.boxes - {id}).Keys == w.boxes.Keys - {id};
  }

  lemma BytesAck(cfg: Config, w: World, box: string, i: nat, at: Instant, w': World)
    requires BytesOk(cfg, w) && box in w.boxes && i < |w.boxes[box].queue| && w.clock <= at
    requires w'.boxes == w.boxes[box := Dequeue(w.boxes[box], i, at)] && w'.clock == at
    requires w'.globalBytes == w.globalBytes - |w.boxes[box].queue[i].blob| && w'.deleting == w.deleting
    ensures BytesOk(cfg, w')
  {
    hide MailboxIdShapeOk, MailboxOk;
    DequeueOk(cfg, w.clock, w.boxes[box], i, at);
    TableOkUpdate(cfg, w.clock, at, w.boxes, box, Dequeue(w.boxes[box], i, at));
    TableBytesUpdate(w.boxes, box, Dequeue(w.boxes[box], i, at));
  }

  lemma BytesRegister(cfg: Config, w: World, chan: Chan, id: string, at: Instant)
    requires BytesOk(cfg, w) && id in w.boxes && w.clock <= at
    ensures BytesOk(cfg, RegisterStep(w, chan, id, at))
  {
    hide MailboxIdShapeOk, QueueBytes, SortedByDeposit;
    var mb := w.boxes[id].(notify := Some(chan), lastActivity := Some(at));
    assert MailboxOk(cfg, w.clock, w.boxes[id]);
    assert MailboxOk(cfg, at, mb);
    TableOkUpdate(cfg, w.clock, at, w.boxes, id, mb);
    TableBytesUpdate(w.boxes, id, mb);
  }

  lemma BytesStep(cfg: Config, w: World, s: Step)
    requires BytesOk(cfg, w) && Enabled(w, s)
    ensures BytesOk(cfg, Apply(cfg, w, s))
  {
    hide MailboxIdShapeOk, MailboxOk, Admissible, TableBytes, SweptBytes, SweptTable, QueueIds, PoppedIds, Unsent;
    match s
    case Create(id, at) =>
      TableOkLater(cfg, w.clock, at, w.boxes);
      if |w.boxes| < cfg.maxMailboxes {
        BytesCreate(cfg, w, id, at);
      }
    case PutBox(id, at) =>
      TableOkLater(cfg, w.clock, at, w.boxes);
      if MailboxIdShapeOk(id) && id !in w.boxes && |w.boxes| < cfg.maxMailboxes {
        BytesCreate(cfg, w, id, at);
      }
    case Deposit(id, blob, msg, bySource, byBox, t1, t2) =>
      if DepositStatus(cfg, w.boxes, id, blob, bySource, byBox) == Accepted {
        BytesDeposit(cfg, w, id, blob, msg, t1, t2);
      }
    case Remove(id) =>
      if id in w.boxes {
        BytesRemove(cfg, w, id);
      }
    case Subtract(i) =>
      SumSeqRemove(w.deleting, i);
    case Sweep(now) =>
      SweepConserves(cfg, w.clock, now, w.boxes);
      TableOkLater(cfg, w.clock, if now > w.clock then now else w.clock, SweptTable(cfg, now, w.boxes));
    case Register(chan, id, at) =>
      if id in w.boxes {
        BytesRegister(cfg, w, chan, id, at);
      }
    case Ack(chan, msg, at) =>
      var box := w.subs[chan].box;
      if box in w.boxes && Find(w.boxes[box].queue, msg) < |w.boxes[box].queue| {
        BytesAck(cfg, w, box, Find(w.boxes[box].queue, msg), at, AckStep(w, chan, msg, at));
      } else {
        TableOkLater(cfg, w.clock, at, w.boxes);
      }
    case Collect(_) =>
    case SendFrame(_, _) =>
    case WakeUp(_) =>
    case Ignore(_) =>
    case Drained(_) =>
    case Close(_) =>
  }

  /** What the next step will subtract from the global counter. */
  ghost function Subtrahend(cfg: Config, w: World, s: Step): int
    requires Enabled(w, s)
  {
    match s
    case Subtract(i) => w.deleting[i]
    case Sweep(now) => SweptBytes(cfg, now, w.boxes)
    case Ack(chan, msg, _) =>
      var box := w.subs[chan].box;
      if box in w.boxes && Find(w.boxes[box].queue, msg) < |w.boxes[box].queue|
      then |w.boxes[box].queue[Find(w.boxes[box].queue, msg)].blob| else 0
    case _ => 0
  }

  /** No subtraction from the global counter wraps, and the counter stays within its bound. */
  lemma CounterNeverWraps(cfg: Config, w: World, s: Step)
    requires BytesOk(cfg, w) && Enabled(w, s)
    ensures 0 <= Subtrahend(cfg, w, s) <= w.globalBytes <= (cfg.maxMailboxes + |w.deleting|) * cfg.maxBytes
  {
    hide MailboxIdShapeOk, MailboxOk, TableBytes, SweptBytes, SweptTable;
    TableBytesBounds(cfg, w.clock, w.boxes);
    SumSeqBounds(w.deleting, cfg.maxBytes);
    assert (cfg.maxMailboxes + |w.deleting|) * cfg.maxBytes == cfg.maxMailboxes * cfg.maxBytes
      + |w.deleting| * cfg.maxBytes;
    match s
    case Subtract(i) =>
      SumSeqRemove(w.deleting, i);
      SumSeqBounds(w.deleting[..i] + w.deleting[i + 1..], cfg.maxBytes);
    case Sweep(now) =>
      SweepConserves(cfg, w.clock, now, w.boxes);
      TableBytesBounds(cfg, w.clock, SweptTable(cfg, now, w.boxes));
    case Ack(chan, msg, at) =>
      BytesStep(cfg, w, s);
      var w' := Apply(cfg, w, s);
      TableBytesBounds(cfg, w'.clock, w'.boxes);
    case _ =>
  }

  lemma StartBytes(cfg: Config)
    ensures BytesOk(cfg, Start)
  {
    assert (map id | id in Start.boxes :: Start.boxes[id].queuedBytes) == map[];
  }

  /** In every reachable state the counters agree with the queues they count. */
  lemma {:induction false} BytesAlways(cfg: Config, trace: seq<World>)
    requires Run(cfg, trace)
    ensures forall i :: 0 <= i < |trace| ==> BytesOk(cfg, trace[i])
  {
    hide BytesOk, Enabled, Apply;
    var n := 0;
    StartBytes(cfg);
    while n < |trace| - 1
      invariant 0 <= n < |trace|
      invariant forall i :: 0 <= i <= n ==> BytesOk(cfg, trace[i])
    {
      assert Next(cfg, trace[n], trace[n + 1]);
      var s :| Enabled(trace[n], s) && trace[n + 1] == Apply(cfg, trace[n], s);
      BytesStep(cfg, trace[n], s);
      n := n + 1;
    }
  }

  // A run in which the counter exceeds what all mailboxes together may hold.

  lemma StepIsNext(cfg: Config, w: World, s: Step)
    requires Enabled(w, s)
    ensures Next(cfg, w, Apply(cfg, w, s))
  {}

  function Zeros(n: nat): (bs: seq<Byte>)
    ensures |bs| == n
  {
    if n == 0 then [] else [0] + Zeros(n - 1)
  }

  lemma AnId() returns (id: string)
    ensures MailboxIdShapeOk(id)
  {
    id := Encode(Zeros(32));
    MailboxIds(Zeros(32), Zeros(32));
  }

  /** The smallest envelope the relay admits, filled up to `size`. */
  function SomeBlob(size: nat): (b: seq<Byte>)
    requires size >= 9
    ensures |b| == size && Admissible(b)
  {
    var b := [0x54, 0x5A, 0x43, 0x41, 1] + Zeros(size - 5);
    assert b[..4] == [0x54, 0x5A, 0x43, 0x41];
    b
  }

  /** From an empty table: a mailbox is created and filled. */
  lemma FillOne(cfg: Config, w: World, id: string, msg: MsgId) returns (w1: World, w2: World)
    requires cfg.maxMailboxes >= 1 && cfg.maxMessages >= 1 && cfg.maxBytes >= 9 && MailboxIdShapeOk(id)
    requires w.boxes == map[] && msg !in w.hist.slots && w.clock == 0
    ensures Next(cfg, w, w1) && Next(cfg, w1, w2)
    ensures w2.boxes.Keys == {id} && w2.boxes[id].queuedBytes == cfg.maxBytes && w2.clock == 0
    ensures w2.globalBytes == w.globalBytes + cfg.maxBytes && w2.hist.slots.Keys == w.hist.slots.Keys + {msg}
  {
    var blob := SomeBlob(cfg.maxBytes);
    hide MailboxIdShapeOk, Admissible, SomeBlob;
    w1 := Apply(cfg, w, Create(id, 0));
    assert w1.boxes == map[id := FreshMailbox(0)];
    w2 := Apply(cfg, w1, Deposit(id, blob, msg, true, true, 0, 0));
    StepIsNext(cfg, w, Create(id, 0));
    StepIsNext(cfg, w1, Deposit(id, blob, msg, true, true, 0, 0));
    hide Next;
  }

  /**
   With one mailbox allowed: fill it, delete it, and fill a new one before the delete has subtracted. The
   counter then holds twice what the table may.
   */
  lemma CounterExceedsTable(cfg: Config)
    requires cfg.maxMailboxes == 1 && cfg.maxMessages >= 1 && cfg.maxBytes >= 9
    ensures exists trace: seq<World> ::
      Run(cfg, trace) && trace[|trace| - 1].globalBytes > cfg.maxMailboxes * cfg.maxBytes
  {
    var id := AnId();
    hide MailboxIdShapeOk;
    var w1, w2 := FillOne(cfg, Start, id, 0);
    var w3 := Apply(cfg, w2, Remove(id));
    assert w3.boxes == map[] && w3.globalBytes == cfg.maxBytes;
    StepIsNext(cfg, w2, Remove(id));
    hide Apply, Enabled, Next;
    var w4, w5 := FillOne(cfg, w3, id, 1);
    assert Run(cfg, [Start, w1, w2, w3, w4, w5]);
  }
}
