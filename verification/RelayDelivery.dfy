/**
 What subscribers of the relay can rely on, over every run of RelayWorld: nothing accepted is lost
 track of, a connection sends in order of acceptance and never twice, and no wake-up is lost.
 */
module RelayDelivery {
  import opened Bytes
  import opened Base64Url
  import opened RelayTable
  import opened RelayWorld

  function Pos(h: History, id: MsgId): int { if id in h.slots then h.slots[id].pos else -1 }

  predicate Belongs(h: History, id: MsgId, box: string) { id in h.slots && h.slots[id].box == box }

  predicate Fated(h: History, id: MsgId) { id in h.acked || id in h.expired || id in h.deleted }

  predicate InQueue(t: Table, box: string, id: MsgId) { box in t && id in QueueIds(t[box].queue) }

  predicate InLog(h: History, box: string, i: nat) { box in h.log && i < |h.log[box]| }

  ghost predicate HistoryOk(h: History) {
    && (forall id :: id in h.slots ==>
         InLog(h, h.slots[id].box, h.slots[id].pos) && h.log[h.slots[id].box][h.slots[id].pos] == id)
    && (forall box, i: nat :: InLog(h, box, i) ==> Belongs(h, h.log[box][i], box) && Pos(h, h.log[box][i]) == i)
    && h.acked !! h.expired !! h.deleted
    && h.acked + h.expired + h.deleted <= h.slots.Keys
  }

  ghost predicate QueueOk(h: History, box: string, q: seq<Queued>) {
    && (forall i :: 0 <= i < |q| ==> Belongs(h, q[i].id, box) && !Fated(h, q[i].id))
    && (forall i, j :: 0 <= i < j < |q| ==> Pos(h, q[i].id) < Pos(h, q[j].id))
  }

  /** Every accepted message is in its queue, or was acked, or expired, or went with a deleted mailbox. */
  ghost predicate AccountOk(h: History, t: Table) {
    && HistoryOk(h)
    && (forall b :: b in t ==> QueueOk(h, b, t[b].queue))
    && (forall id :: id in h.slots && !Fated(h, id) ==> InQueue(t, h.slots[id].box, id))
  }

  // Accounting, step by step.

  lemma AccountSameQueues(h: History, t: Table, t': Table)
    requires AccountOk(h, t)
    requires forall b :: b in t ==> b in t' && t'[b].queue == t[b].queue
    requires forall b :: b in t' && b !in t ==> t'[b].queue == []
    ensures AccountOk(h, t')
  {
    hide HistoryOk;
    forall b | b in t'
      ensures QueueOk(h, b, t'[b].queue)
    {
      if b in t {
        assert QueueOk(h, b, t[b].queue);
      }
    }
  }

  lemma RecordOk(h: History, box: string, msg: MsgId)
    requires HistoryOk(h) && msg !in h.slots
    ensures HistoryOk(Record(h, box, msg))
    ensures forall id :: id in h.slots ==> Pos(Record(h, box, msg), id) == Pos(h, id)
    ensures forall id, b :: Belongs(h, id, b) ==> Belongs(Record(h, box, msg), id, b)
    ensures Belongs(Record(h, box, msg), msg, box) && !Fated(Record(h, box, msg), msg)
    ensures forall id :: Belongs(h, id, box) ==> Pos(h, id) < Pos(Record(h, box, msg), msg)
  {
    var h' := Record(h, box, msg);
    forall b, i: nat | InLog(h', b, i)
      ensures Belongs(h', h'.log[b][i], b) && Pos(h', h'.log[b][i]) == i
    {
      assert !(b == box && i == |LogOf(h, box)|) ==> InLog(h, b, i) && h'.log[b][i] == h.log[b][i];
    }
    forall id | id in h'.slots
      ensures InLog(h', h'.slots[id].box, h'.slots[id].pos) && h'.log[h'.slots[id].box][h'.slots[id].pos] == id
    {
      assert id != msg ==> InLog(h, h.slots[id].box, h.slots[id].pos);
    }
    forall id | Belongs(h, id, box)
      ensures Pos(h, id) < Pos(h', msg)
    {
      assert InLog(h, box, h.slots[id].pos);
    }
  }

  lemma AccountDeposit(h: History, t: Table, box: string, m: Queued, t': Table)
    requires AccountOk(h, t) && m.id !in h.slots && box in t && box in t'
    requires t'[box].queue == t[box].queue + [m]
    requires t'.Keys == t.Keys && forall b :: b in t && b != box ==> t'[b] == t[b]
    ensures AccountOk(Record(h, box, m.id), t')
  {
    var h' := Record(h, box, m.id);
    RecordOk(h, box, m.id);
    hide HistoryOk, Record, QueueIds;
    assert h'.slots.Keys == h.slots.Keys + {m.id} && (forall id :: id in h.slots ==> h'.slots[id] == h.slots[id]) by {
      RecordSlots(h, box, m.id);
    }
    RecordFates(h, box, m.id);
    forall b | b in t'
      ensures QueueOk(h', b, t'[b].queue)
    {
      assert QueueOk(h, b, t[b].queue);
      assert forall i :: 0 <= i < |t[b].queue| ==> Belongs(h, t[b].queue[i].id, b);
      if b == box {
        QueueGrows(h, h', box, t[box].queue, m);
      } else {
        assert t'[b].queue == t[b].queue;
      }
    }
    QueueIdsConcat(t[box].queue, m);
    forall id | id in h'.slots && !Fated(h', id)
      ensures InQueue(t', h'.slots[id].box, id)
    {
      if id != m.id {
        assert InQueue(t, h.slots[id].box, id);
      }
    }
  }

  lemma RecordSlots(h: History, box: string, msg: MsgId)
    ensures Record(h, box, msg).slots.Keys == h.slots.Keys + {msg}
    ensures forall id :: id in h.slots && id != msg ==> Record(h, box, msg).slots[id] == h.slots[id]
    ensures Record(h, box, msg).slots[msg].box == box
  {}

  lemma RecordFates(h: History, box: string, msg: MsgId)
    ensures forall id :: Fated(Record(h, box, msg), id) <==> Fated(h, id)
  {}

  lemma QueueGrows(h: History, h': History, box: string, q: seq<Queued>, m: Queued)
    requires QueueOk(h, box, q) && Belongs(h', m.id, box) && !Fated(h', m.id)
    requires forall id :: Belongs(h, id, box) ==>
      Belongs(h', id, box) && Pos(h', id) == Pos(h, id) < Pos(h', m.id)
    requires forall id :: Fated(h', id) <==> Fated(h, id)
    ensures QueueOk(h', box, q + [m])
  {
    var r := q + [m];
    forall i | 0 <= i < |q|
      ensures Belongs(h, r[i].id, box)
    {
      assert r[i] == q[i];
    }
  }

  lemma QueueIdsConcat(q: seq<Queued>, m: Queued)
    ensures QueueIds(q + [m]) == QueueIds(q) + {m.id}
  {
    var r := q + [m];
    forall id | id in QueueIds(q) + {m.id}
      ensures id in QueueIds(r)
    {
      if id == m.id {
        assert r[|q|].id == id;
      } else {
        var i :| 0 <= i < |q| && q[i].id == id;
        assert r[i].id == id;
      }
    }
  }

  /** Messages `gone` leave the queues of `t` and get a fate; the rest stay, in order. */
  ghost predicate Leaves(h: History, t: Table, h': History, t': Table, gone: set<MsgId>) {
    && h'.log == h.log && h'.slots == h.slots
    && (forall id :: Fated(h', id) <==> Fated(h, id) || id in gone)
    && (forall b :: b in t' ==>
          b in t && QueueOk(h, b, t'[b].queue) && QueueIds(t'[b].queue) == QueueIds(t[b].queue) - gone)
    && (forall b :: b in t && b !in t' ==> QueueIds(t[b].queue) <= gone)
  }

  lemma AccountLeaves(h: History, t: Table, h': History, t': Table, gone: set<MsgId>)
    requires AccountOk(h, t) && Leaves(h, t, h', t', gone) && HistoryOk(h')
    ensures AccountOk(h', t')
  {
    hide HistoryOk, QueueIds;
    forall b | b in t'
      ensures QueueOk(h', b, t'[b].queue)
    {
      forall i | 0 <= i < |t'[b].queue|
        ensures !Fated(h', t'[b].queue[i].id)
      {
        InOwnIds(t'[b].queue, i);
      }
      assert forall id :: Pos(h', id) == Pos(h, id);
    }
    forall id | id in h'.slots && !Fated(h', id)
      ensures InQueue(t', h'.slots[id].box, id)
    {
      assert InQueue(t, h.slots[id].box, id);
    }
  }

  lemma InOwnIds(q: seq<Queued>, i: nat)
    requires i < |q|
    ensures q[i].id in QueueIds(q)
  {}

  lemma SubQueueOk(h: History, box: string, q: seq<Queued>, i: nat)
    requires QueueOk(h, box, q) && i <= |q|
    ensures QueueOk(h, box, q[i..])
    ensures QueueIds(q[i..]) == QueueIds(q) - (set k | 0 <= k < i :: q[k].id)
    ensures forall k :: 0 <= k < |q| && q[k].id in QueueIds(q[i..]) ==> i <= k
  {
    var r := q[i..];
    forall k | 0 <= k < |q|
      ensures q[k].id in QueueIds(r) <==> i <= k
    {
      if i <= k {
        assert r[k - i].id == q[k].id;
      } else {
        assert forall j :: 0 <= j < |r| ==> Pos(h, q[k].id) < Pos(h, r[j].id);
      }
    }
    forall id | id in QueueIds(r)
      ensures id in QueueIds(q)
    {
      var j :| 0 <= j < |r| && r[j].id == id;
      assert q[i + j].id == id;
    }
  }

  lemma CutQueueOk(h: History, box: string, q: seq<Queued>, i: nat)
    requires QueueOk(h, box, q) && i < |q|
    ensures QueueOk(h, box, q[..i] + q[i + 1..])
    ensures QueueIds(q[..i] + q[i + 1..]) == QueueIds(q) - {q[i].id}
  {
    var r := q[..i] + q[i + 1..];
    forall k | 0 <= k < |r|
      ensures r[k] == q[if k < i then k else k + 1] && r[k].id != q[i].id
    {
      var j := if k < i then k else k + 1;
      assert Pos(h, q[j].id) != Pos(h, q[i].id);
    }
    forall id | id in QueueIds(q) && id != q[i].id
      ensures id in QueueIds(r)
    {
      var j :| 0 <= j < |q| && q[j].id == id;
      assert r[if j < i then j else j - 1].id == id;
    }
  }

  lemma AccountAck(h: History, t: Table, box: string, i: nat, t': Table)
    requires AccountOk(h, t) && box in t && i < |t[box].queue|
    requires t'.Keys == t.Keys && forall b :: b in t && b != box ==> t'[b] == t[b]
    requires box in t' && t'[box].queue == t[box].queue[..i] + t[box].queue[i + 1..]
    ensures AccountOk(h.(acked := h.acked + {t[box].queue[i].id}), t')
  {
    var msg := t[box].queue[i].id;
    var h' := h.(acked := h.acked + {msg});
    assert QueueOk(h, box, t[box].queue);
    assert Belongs(h, msg, box) && !Fated(h, msg);
    FateAdded(h, h', {msg});
    hide HistoryOk;
    CutQueueOk(h, box, t[box].queue, i);
    OthersKeep(h, t, box, {msg});
    forall b | b in t'
      ensures QueueOk(h, b, t'[b].queue) && QueueIds(t'[b].queue) == QueueIds(t[b].queue) - {msg}
    {}
    AccountLeaves(h, t, h', t', {msg});
  }

  /** Ids of one mailbox's messages occur in no other mailbox's queue. */
  lemma OthersKeep(h: History, t: Table, box: string, gone: set<MsgId>)
    requires AccountOk(h, t)
    requires forall id :: id in gone ==> Belongs(h, id, box)
    ensures forall b :: b in t && b != box ==>
      QueueOk(h, b, t[b].queue) && QueueIds(t[b].queue) == QueueIds(t[b].queue) - gone
  {
    forall b | b in t && b != box
      ensures QueueOk(h, b, t[b].queue) && QueueIds(t[b].queue) == QueueIds(t[b].queue) - gone
    {
      assert QueueOk(h, b, t[b].queue);
      forall id | id in QueueIds(t[b].queue)
        ensures id !in gone
      {
        var i :| 0 <= i < |t[b].queue| && t[b].queue[i].id == id;
        assert Belongs(h, id, b);
      }
    }
  }

  /** A history that gives a fate to accepted messages that had none. */
  lemma FateAdded(h: History, h': History, gone: set<MsgId>)
    requires HistoryOk(h) && h'.log == h.log && h'.slots == h.slots
    requires gone <= h.slots.Keys && forall id :: id in gone ==> !Fated(h, id)
    requires (h'.acked, h'.expired, h'.deleted) == (h.acked + gone, h.expired, h.deleted)
          || (h'.acked, h'.expired, h'.deleted) == (h.acked, h.expired + gone, h.deleted)
          || (h'.acked, h'.expired, h'.deleted) == (h.acked, h.expired, h.deleted + gone)
    ensures HistoryOk(h')
    ensures forall id :: Fated(h', id) <==> Fated(h, id) || id in gone
  {
    forall b, i: nat | InLog(h', b, i)
      ensures Belongs(h', h'.log[b][i], b) && Pos(h', h'.log[b][i]) == i
    {
      assert InLog(h, b, i);
    }
    forall id | id in h'.slots
      ensures InLog(h', h'.slots[id].box, h'.slots[id].pos) && h'.log[h'.slots[id].box][h'.slots[id].pos] == id
    {
      assert InLog(h, h.slots[id].box, h.slots[id].pos);
    }
  }

  lemma AccountRemove(h: History, t: Table, box: string)
    requires AccountOk(h, t) && box in t
    ensures AccountOk(h.(deleted := h.deleted + QueueIds(t[box].queue)), t - {box})
  {
    var gone := QueueIds(t[box].queue);
    var h' := h.(deleted := h.deleted + gone);
    assert QueueOk(h, box, t[box].queue);
    FateAdded(h, h', gone);
    hide HistoryOk;
    OthersKeep(h, t, box, gone);
    AccountLeaves(h, t, h', t - {box}, gone);
  }

  lemma PoppedHadNoFate(cfg: Config, h: History, t: Table, now: Instant)
    requires AccountOk(h, t)
    ensures PoppedIds(cfg, now, t) <= h.slots.Keys && forall id :: id in PoppedIds(cfg, now, t) ==> !Fated(h, id)
  {
    hide HistoryOk;
    forall id | id in PoppedIds(cfg, now, t)
      ensures id in h.slots && !Fated(h, id)
    {
      var b, i :| b in t && 0 <= i < Popped(cfg, now, t[b].queue) && t[b].queue[i].id == id;
      assert QueueOk(h, b, t[b].queue);
    }
  }

  lemma AccountSweep(cfg: Config, clock: Instant, h: History, t: Table, now: Instant)
    requires AccountOk(h, t) && TableOk(cfg, clock, t)
    ensures AccountOk(h.(expired := h.expired + PoppedIds(cfg, now, t)), SweptTable(cfg, now, t))
  {
    var gone := PoppedIds(cfg, now, t);
    var h' := h.(expired := h.expired + gone);
    var t' := SweptTable(cfg, now, t);
    PoppedHadNoFate(cfg, h, t, now);
    FateAdded(h, h', gone);
    hide HistoryOk, MailboxIdShapeOk, PoppedIds, QueueIds, QueueOk, Popped, SortedByDeposit, QueueBytes;
    forall b | b in t
      ensures b in t' ==> QueueOk(h, b, t'[b].queue) && QueueIds(t'[b].queue) == QueueIds(t[b].queue) - gone
      ensures b !in t' ==> QueueIds(t[b].queue) <= gone
    {
      SweepOneQueue(cfg, h, t, now, b);
      if b !in t' {
        DroppedIsIdle(cfg, clock, now, t[b]);
        IdleMailboxIsEmpty(cfg, clock, now, t[b]);
      }
    }
    AccountLeaves(h, t, h', t', gone);
  }

  lemma SweepOneQueue(cfg: Config, h: History, t: Table, now: Instant, b: string)
    requires AccountOk(h, t) && b in t
    ensures QueueOk(h, b, SweptMailbox(cfg, now, t[b]).queue)
    ensures QueueIds(SweptMailbox(cfg, now, t[b]).queue) == QueueIds(t[b].queue) - PoppedIds(cfg, now, t)
    ensures Popped(cfg, now, t[b].queue) == |t[b].queue| ==> QueueIds(t[b].queue) <= PoppedIds(cfg, now, t)
  {
    hide HistoryOk;
    var q := t[b].queue;
    var n := Popped(cfg, now, q);
    assert QueueOk(h, b, q);
    SubQueueOk(h, b, q, n);
    var popped := PoppedIds(cfg, now, t);
    forall id | id in QueueIds(q)
      ensures id in popped <==> id in set k | 0 <= k < n :: q[k].id
    {
      if id in popped {
        var c, i :| c in t && 0 <= i < Popped(cfg, now, t[c].queue) && t[c].queue[i].id == id;
        assert QueueOk(h, c, t[c].queue);
        assert Belongs(h, id, c) && Belongs(h, id, b);
      }
    }
  }

  lemma AccountStep(cfg: Config, w: World, s: Step)
    requires AccountOk(w.hist, w.boxes) && TableOk(cfg, w.clock, w.boxes) && Enabled(w, s)
    ensures AccountOk(Apply(cfg, w, s).hist, Apply(cfg, w, s).boxes)
  {
    hide AccountOk, TableOk, MailboxIdShapeOk, Admissible, PoppedIds, QueueIds, SweptTable, SweptBytes, Unsent;
    var w' := Apply(cfg, w, s);
    match s
    case Deposit(id, blob, msg, bySource, byBox, t1, t2) =>
      if DepositStatus(cfg, w.boxes, id, blob, bySource, byBox) == Accepted {
        AccountDeposit(w.hist, w.boxes, id, Queued(msg, blob, t1), w'.boxes);
      }
    case Remove(id) =>
      if id in w.boxes {
        AccountRemove(w.hist, w.boxes, id);
      }
    case Sweep(now) =>
      AccountSweep(cfg, w.clock, w.hist, w.boxes, now);
    case Ack(chan, msg, at) =>
      var box := w.subs[chan].box;
      if box in w.boxes && Find(w.boxes[box].queue, msg) < |w.boxes[box].queue| {
        AccountAck(w.hist, w.boxes, box, Find(w.boxes[box].queue, msg), w'.boxes);
      }
    case _ =>
      AccountSameQueues(w.hist, w.boxes, w'.boxes);
  }

  // Order on one connection.

  function Handed(s: Subscriber): seq<MsgId> { s.wire + s.frames }

  ghost predicate Ascending(h: History, ids: seq<MsgId>) {
    forall i, j :: 0 <= i < j < |ids| ==> Pos(h, ids[i]) < Pos(h, ids[j])
  }

  /** Whatever a queue still holds from before the last message handed to a connection was handed too. */
  ghost predicate NoGap(h: History, q: seq<Queued>, ids: seq<MsgId>) {
    forall i, k :: 0 <= i < |q| && 0 <= k < |ids| && Pos(h, q[i].id) < Pos(h, ids[k]) ==> q[i].id in ids
  }

  ghost predicate SubscriberOk(h: History, t: Table, s: Subscriber) {
    && (forall id :: id in s.sent <==> id in s.wire)
    && (s.frames != [] ==> s.phase.Sending? || s.phase.Ended?)
    && (forall k :: 0 <= k < |Handed(s)| ==> Belongs(h, Handed(s)[k], s.box))
    && Ascending(h, Handed(s))
    && (s.box in t ==> NoGap(h, t[s.box].queue, Handed(s)))
  }

  /** A parked or sending task that the mailbox would wake has everything, or a wake is waiting for it. */
  ghost predicate WakeOk(t: Table, c: Chan, s: Subscriber) {
    s.box in t && t[s.box].notify == Some(c) && (s.phase.Sending? || s.phase.Parked?) ==>
      s.tokens > 0 || QueueIds(t[s.box].queue) <= (set id | id in Handed(s))
  }

  ghost predicate DeliveryOk(w: World) {
    && (forall c :: c in w.subs ==> SubscriberOk(w.hist, w.boxes, w.subs[c]) && WakeOk(w.boxes, c, w.subs[c]))
    && (forall b :: b in w.boxes && w.boxes[b].notify.Some? ==>
         w.boxes[b].notify.value in w.subs && w.subs[w.boxes[b].notify.value].box == b)
  }

  /** Keeping a subscriber's order across a step of someone else: old positions stay, late arrivals come last. */
  lemma SubscriberKeeps(h: History, t: Table, h': History, t': Table, s: Subscriber, s': Subscriber)
    requires SubscriberOk(h, t, s) && s'.box == s.box && s'.wire == s.wire && s'.frames == s.frames && s'.sent == s.sent
    requires s'.frames != [] ==> s'.phase.Sending? || s'.phase.Ended?
    requires forall id :: Belongs(h, id, s.box) ==> Belongs(h', id, s.box) && Pos(h', id) == Pos(h, id)
    requires s.box in t' ==> forall i :: 0 <= i < |t'[s.box].queue| ==>
      var id := t'[s.box].queue[i].id;
      (Belongs(h, id, s.box) && InQueue(t, s.box, id)) || forall x :: Belongs(h, x, s.box) ==> Pos(h', x) < Pos(h', id)
    ensures SubscriberOk(h', t', s')
  {
    var ids := Handed(s);
    assert forall k :: 0 <= k < |ids| ==> Belongs(h, ids[k], s.box);
    if s.box in t' {
      var q := t'[s.box].queue;
      forall i, k | 0 <= i < |q| && 0 <= k < |ids| && Pos(h', q[i].id) < Pos(h', ids[k])
        ensures q[i].id in ids
      {
        assert Belongs(h, ids[k], s.box);
        var j :| 0 <= j < |t[s.box].queue| && t[s.box].queue[j].id == q[i].id;
        assert Pos(h, t[s.box].queue[j].id) < Pos(h, ids[k]);
      }
    }
  }

  lemma DeliveryDeposit(cfg: Config, w: World, id: string, blob: seq<Byte>, msg: MsgId, t1: Instant, t2: Instant)
    requires DeliveryOk(w) && AccountOk(w.hist, w.boxes) && id in w.boxes && msg !in w.hist.slots
    ensures DeliveryOk(DepositStep(cfg, w, id, blob, msg, t1, t2))
  {
    var w' := DepositStep(cfg, w, id, blob, msg, t1, t2);
    RecordOk(w.hist, id, msg);
    hide HistoryOk, Record, SubscriberOk, QueueIds, WakeOk, Belongs, Pos;
    forall c | c in w'.subs
      ensures SubscriberOk(w'.hist, w'.boxes, w'.subs[c]) && WakeOk(w'.boxes, c, w'.subs[c])
    {
      var s := w.subs[c];
      assert SubscriberOk(w.hist, w.boxes, s) && WakeOk(w.boxes, c, s);
      assert s.box in w.boxes ==> QueueOk(w.hist, s.box, w.boxes[s.box].queue);
      if s.box in w.boxes {
        DepositArrivals(w, s.box, id, msg, w'.hist, w'.boxes[s.box].queue);
      }
      PhaseKeeps(w.hist, w.boxes, s);
      SubscriberKeeps(w.hist, w.boxes, w'.hist, w'.boxes, s, w'.subs[c]);
      WakeAfterDeposit(w, w', c, id);
    }
  }

  lemma PhaseKeeps(h: History, t: Table, s: Subscriber)
    requires SubscriberOk(h, t, s)
    ensures s.frames != [] ==> s.phase.Sending? || s.phase.Ended?
  {}

  lemma DepositArrivals(w: World, box: string, id: string, msg: MsgId, h': History, q': seq<Queued>)
    requires box in w.boxes && QueueOk(w.hist, box, w.boxes[box].queue)
    requires box != id ==> q' == w.boxes[box].queue
    requires box == id ==>
      |q'| == |w.boxes[box].queue| + 1 && q'[..|q'| - 1] == w.boxes[box].queue && q'[|q'| - 1].id == msg
    requires forall x :: Belongs(w.hist, x, id) ==> Pos(w.hist, x) < Pos(h', msg) && Pos(h', x) == Pos(w.hist, x)
    ensures forall i :: 0 <= i < |q'| ==>
      (Belongs(w.hist, q'[i].id, box) && InQueue(w.boxes, box, q'[i].id))
      || forall x :: Belongs(w.hist, x, box) ==> Pos(h', x) < Pos(h', q'[i].id)
  {
    var q := w.boxes[box].queue;
    forall i | 0 <= i < |q|
      ensures q'[i] == q[i] && InQueue(w.boxes, box, q[i].id)
    {
      if box == id {
        assert q'[..|q'| - 1][i] == q'[i];
      }
    }
  }

  lemma WakeAfterDeposit(w: World, w': World, c: Chan, id: string)
    requires DeliveryOk(w) && c in w.subs && c in w'.subs && id in w.boxes && id in w'.boxes
    requires forall b :: b in w'.boxes && b != id ==> b in w.boxes && w'.boxes[b] == w.boxes[b]
    requires w'.boxes[id].notify == w.boxes[id].notify && w'.subs == Notify(w.subs, w.boxes[id].notify)
    ensures WakeOk(w'.boxes, c, w'.subs[c])
  {
    assert WakeOk(w.boxes, c, w.subs[c]);
  }

  /** Steps that only take messages out of queues, or forget whom to wake. */
  lemma DeliveryShrinks(w: World, w': World)
    requires DeliveryOk(w) && w'.subs == w.subs && w'.hist.log == w.hist.log && w'.hist.slots == w.hist.slots
    requires forall b :: b in w'.boxes && b in w.boxes ==>
      QueueIds(w'.boxes[b].queue) <= QueueIds(w.boxes[b].queue) && w'.boxes[b].notify == w.boxes[b].notify
    requires forall b :: b in w.boxes ==> QueueOk(w.hist, b, w.boxes[b].queue)
    requires forall b :: b in w'.boxes && b !in w.boxes ==> w'.boxes[b].queue == [] && w'.boxes[b].notify.None?
    ensures DeliveryOk(w')
  {
    hide SubscriberOk;
    forall c | c in w'.subs
      ensures SubscriberOk(w'.hist, w'.boxes, w'.subs[c]) && WakeOk(w'.boxes, c, w'.subs[c])
    {
      var s := w.subs[c];
      assert SubscriberOk(w.hist, w.boxes, s) && WakeOk(w.boxes, c, s);
      if s.box in w'.boxes && s.box in w.boxes {
        StaysQueued(w.hist, w.boxes, s.box, w'.boxes[s.box].queue);
      }
      PhaseKeeps(w.hist, w.boxes, s);
      SubscriberKeeps(w.hist, w.boxes, w'.hist, w'.boxes, s, s);
    }
  }

  lemma StaysQueued(h: History, t: Table, b: string, q': seq<Queued>)
    requires b in t && QueueOk(h, b, t[b].queue) && QueueIds(q') <= QueueIds(t[b].queue)
    ensures forall i :: 0 <= i < |q'| ==> Belongs(h, q'[i].id, b) && InQueue(t, b, q'[i].id)
  {
    forall i | 0 <= i < |q'|
      ensures Belongs(h, q'[i].id, b) && InQueue(t, b, q'[i].id)
    {
      InOwnIds(q', i);
      var j :| 0 <= j < |t[b].queue| && t[b].queue[j].id == q'[i].id;
      assert Belongs(h, t[b].queue[j].id, b);
    }
  }

  /** One subscriber takes a step of its own. */
  lemma DeliveryOwnStep(w: World, w': World, c: Chan)
    requires DeliveryOk(w) && w'.boxes == w.boxes && w'.hist == w.hist && c in w'.subs
    requires w'.subs == w.subs[c := w'.subs[c]] && c in w.subs ==> w'.subs[c].box == w.subs[c].box
    requires w'.subs.Keys == w.subs.Keys && w'.subs[c].box == w.subs[c].box
    requires forall d :: d in w.subs && d != c ==> w'.subs[d] == w.subs[d]
    requires SubscriberOk(w.hist, w.boxes, w'.subs[c]) && WakeOk(w.boxes, c, w'.subs[c])
    ensures DeliveryOk(w')
  {
    hide SubscriberOk, WakeOk;
  }

  lemma DeliveryCollect(w: World, c: Chan)
    requires DeliveryOk(w) && AccountOk(w.hist, w.boxes) && c in w.subs && w.subs[c].phase.Collecting?
    ensures DeliveryOk(CollectStep(w, c))
  {
    var s, s' := w.subs[c], CollectStep(w, c).subs[c];
    assert SubscriberOk(w.hist, w.boxes, s);
    assert s.frames == [] && Handed(s) == s.wire;
    if !s'.phase.Ended? {
      var q := w.boxes[s.box].queue;
      assert QueueOk(w.hist, s.box, q);
      UnsentAscends(w.hist, s.box, q, s.sent);
      CollectOrder(w.hist, s.box, q, s.wire, s'.frames);
      assert WakeOk(w.boxes, c, s') by {
        assert QueueIds(q) <= (set id | id in Handed(s'));
      }
      assert SubscriberOk(w.hist, w.boxes, s');
    } else {
      assert Handed(s') == Handed(s);
    }
    hide AccountOk, SubscriberOk, WakeOk;
    DeliveryOwnStep(w, CollectStep(w, c), c);
  }

  lemma UnsentSource(q: seq<Queued>, sent: set<MsgId>, k: nat) returns (j: nat)
    requires k < |Unsent(q, sent)|
    ensures j < |q| && q[j].id == Unsent(q, sent)[k]
  {
    assert Unsent(q, sent)[k] in Unsent(q, sent);
    j :| 0 <= j < |q| && q[j].id == Unsent(q, sent)[k];
  }

  lemma TailQueueOk(h: History, box: string, q: seq<Queued>)
    requires QueueOk(h, box, q) && q != []
    ensures QueueOk(h, box, q[1..]) && Belongs(h, q[0].id, box)
    ensures forall j :: 0 <= j < |q[1..]| ==> Pos(h, q[0].id) < Pos(h, q[1..][j].id)
  {}

  lemma {:induction false} UnsentAscends(h: History, box: string, q: seq<Queued>, sent: set<MsgId>)
    requires QueueOk(h, box, q)
    ensures Ascending(h, Unsent(q, sent))
    ensures forall k :: 0 <= k < |Unsent(q, sent)| ==> Belongs(h, Unsent(q, sent)[k], box)
  {
    hide QueueOk, Pos, Belongs;
    if q != [] {
      TailQueueOk(h, box, q);
      UnsentAscends(h, box, q[1..], sent);
      var rest := Unsent(q[1..], sent);
      forall k | 0 <= k < |rest|
        ensures Pos(h, q[0].id) < Pos(h, rest[k])
      {
        var j := UnsentSource(q[1..], sent, k);
      }
    }
  }

  lemma CollectOrder(h: History, box: string, q: seq<Queued>, wire: seq<MsgId>, frames: seq<MsgId>)
    requires QueueOk(h, box, q) && Ascending(h, wire) && Ascending(h, frames) && NoGap(h, q, wire)
    requires forall k :: 0 <= k < |wire| ==> Belongs(h, wire[k], box)
    requires forall k :: 0 <= k < |frames| ==> Belongs(h, frames[k], box)
    requires forall id :: id in frames <==> id !in wire && exists i :: 0 <= i < |q| && q[i].id == id
    requires HistoryOk(h)
    ensures Ascending(h, wire + frames) && NoGap(h, q, wire + frames)
  {
    forall i, j | 0 <= i < |wire| && 0 <= j < |frames|
      ensures Pos(h, wire[i]) < Pos(h, frames[j])
    {
      assert frames[j] in frames;
      var k :| 0 <= k < |q| && q[k].id == frames[j];
      assert wire[i] in wire;
      SamePosition(h, box, wire[i], frames[j]);
    }
  }

  lemma SamePosition(h: History, box: string, a: MsgId, b: MsgId)
    requires HistoryOk(h) && Belongs(h, a, box) && Belongs(h, b, box)
    ensures Pos(h, a) == Pos(h, b) ==> a == b
  {
    assert InLog(h, box, h.slots[a].pos);
  }

  lemma DeliverySend(w: World, c: Chan, ok: bool)
    requires DeliveryOk(w) && c in w.subs && w.subs[c].phase.Sending?
    ensures DeliveryOk(SendStep(w, c, ok))
  {
    var s, s' := w.subs[c], SendStep(w, c, ok).subs[c];
    assert SubscriberOk(w.hist, w.boxes, s) && WakeOk(w.boxes, c, s);
    assert Handed(s') == Handed(s);
    hide NoGap, Ascending;
    assert SubscriberOk(w.hist, w.boxes, s') && WakeOk(w.boxes, c, s');
    hide SubscriberOk, WakeOk;
    DeliveryOwnStep(w, SendStep(w, c, ok), c);
  }

  lemma DeliveryPhase(w: World, w': World, c: Chan, s': Subscriber)
    requires DeliveryOk(w) && c in w.subs && w' == w.(subs := w.subs[c := s'])
    requires s' == w.subs[c].(phase := s'.phase, tokens := s'.tokens)
    requires s'.phase.Collecting? || s'.phase.Draining? || s'.phase.Ended?
    requires s'.phase.Ended? || w.subs[c].phase.Parked? || w.subs[c].phase.Draining?
    ensures DeliveryOk(w')
  {
    var s := w.subs[c];
    assert SubscriberOk(w.hist, w.boxes, s);
    assert Handed(s') == Handed(s);
    hide NoGap, Ascending;
    assert SubscriberOk(w.hist, w.boxes, s') && WakeOk(w.boxes, c, s');
    hide SubscriberOk, WakeOk;
    DeliveryOwnStep(w, w', c);
  }

  lemma DeliveryRegister(w: World, chan: Chan, id: string, at: Instant)
    requires DeliveryOk(w) && id in w.boxes && chan !in w.subs
    requires forall b :: b in w.boxes ==> QueueOk(w.hist, b, w.boxes[b].queue)
    ensures DeliveryOk(RegisterStep(w, chan, id, at))
  {
    var w' := RegisterStep(w, chan, id, at);
    hide SubscriberOk, QueueIds;
    forall c | c in w'.subs
      ensures SubscriberOk(w'.hist, w'.boxes, w'.subs[c]) && WakeOk(w'.boxes, c, w'.subs[c])
    {
      if c == chan {
        FreshSubscriberOk(w'.hist, w'.boxes, id);
      } else {
        var s := w.subs[c];
        assert SubscriberOk(w.hist, w.boxes, s) && WakeOk(w.boxes, c, s);
        if s.box in w.boxes {
          StaysQueued(w.hist, w.boxes, s.box, w'.boxes[s.box].queue);
        }
        PhaseKeeps(w.hist, w.boxes, s);
        SubscriberKeeps(w.hist, w.boxes, w'.hist, w'.boxes, s, s);
      }
    }
  }

  lemma FreshSubscriberOk(h: History, t: Table, id: string)
    ensures SubscriberOk(h, t, Subscriber(id, Collecting, {}, [], [], 0))
  {}

  lemma DeliveryAck(w: World, chan: Chan, msg: MsgId, at: Instant)
    requires DeliveryOk(w) && AccountOk(w.hist, w.boxes) && chan in w.subs
    requires w.subs[chan].phase.Parked? || w.subs[chan].phase.Draining?
    ensures DeliveryOk(AckStep(w, chan, msg, at))
  {
    hide SubscriberOk, WakeOk, HistoryOk;
    var s' := w.subs[chan].(phase := Draining);
    var w1 := w.(subs := w.subs[chan := s']);
    DeliveryPhase(w, w1, chan, s');
    var box := w.subs[chan].box;
    var w' := AckStep(w, chan, msg, at);
    if box in w.boxes && Find(w.boxes[box].queue, msg) < |w.boxes[box].queue| {
      assert QueueOk(w.hist, box, w.boxes[box].queue);
      CutQueueOk(w.hist, box, w.boxes[box].queue, Find(w.boxes[box].queue, msg));
    }
    DeliveryShrinks(w1, w');
  }

  lemma DeliverySweep(cfg: Config, w: World, now: Instant)
    requires DeliveryOk(w) && AccountOk(w.hist, w.boxes)
    ensures DeliveryOk(SweepStep(cfg, w, now))
  {
    hide SubscriberOk, WakeOk, HistoryOk, SweptBytes, DeliveryOk;
    var w' := SweepStep(cfg, w, now);
    forall b | b in w'.boxes
      ensures QueueIds(w'.boxes[b].queue) <= QueueIds(w.boxes[b].queue) && w'.boxes[b].notify == w.boxes[b].notify
    {
      SweepOneQueue(cfg, w.hist, w.boxes, now, b);
    }
    DeliveryShrinks(w, w');
  }

  lemma DeliveryTableStep(cfg: Config, w: World, s: Step)
    requires DeliveryOk(w) && Enabled(w, s)
    requires s.Create? || s.PutBox? || s.Remove? || s.Subtract?
    requires forall b :: b in w.boxes ==> QueueOk(w.hist, b, w.boxes[b].queue)
    ensures DeliveryOk(Apply(cfg, w, s))
  {
    hide DeliveryOk, MailboxIdShapeOk, QueueIds, QueueOk;
    var w' := Apply(cfg, w, s);
    assert forall b :: b in w'.boxes && b in w.boxes ==> w'.boxes[b] == w.boxes[b];
    assert forall b :: b in w'.boxes && b !in w.boxes ==> w'.boxes[b].queue == [] && w'.boxes[b].notify.None?;
    DeliveryShrinks(w, w');
  }

  lemma DeliveryTaskStep(cfg: Config, w: World, s: Step)
    requires DeliveryOk(w) && AccountOk(w.hist, w.boxes) && Enabled(w, s)
    requires s.Collect? || s.SendFrame? || s.WakeUp? || s.Ack? || s.Ignore? || s.Drained? || s.Close?
    ensures DeliveryOk(Apply(cfg, w, s))
  {
    hide DeliveryOk, AccountOk, CollectStep, SendStep, AckStep;
    var w' := Apply(cfg, w, s);
    match s
    case Collect(chan) => DeliveryCollect(w, chan);
    case SendFrame(chan, ok) => DeliverySend(w, chan, ok);
    case WakeUp(chan) => DeliveryPhase(w, w', chan, w'.subs[chan]);
    case Ack(chan, msg, at) => DeliveryAck(w, chan, msg, at);
    case Ignore(chan) => DeliveryPhase(w, w', chan, w'.subs[chan]);
    case Drained(chan) => DeliveryPhase(w, w', chan, w'.subs[chan]);
    case Close(chan) => DeliveryPhase(w, w', chan, w'.subs[chan]);
  }

  lemma DeliveryStep(cfg: Config, w: World, s: Step)
    requires DeliveryOk(w) && AccountOk(w.hist, w.boxes) && Enabled(w, s)
    ensures DeliveryOk(Apply(cfg, w, s))
  {
    assert forall b :: b in w.boxes ==> QueueOk(w.hist, b, w.boxes[b].queue);
    hide DeliveryOk, AccountOk, QueueOk, MailboxIdShapeOk, Admissible, SweepStep, DepositStep, RegisterStep;
    match s
    case Deposit(id, blob, msg, bySource, byBox, t1, t2) =>
      if DepositStatus(cfg, w.boxes, id, blob, bySource, byBox) == Accepted {
        DeliveryDeposit(cfg, w, id, blob, msg, t1, t2);
      }
    case Sweep(now) => DeliverySweep(cfg, w, now);
    case Register(chan, id, at) =>
      if id in w.boxes {
        DeliveryRegister(w, chan, id, at);
      }
    case Create(_, _) => DeliveryTableStep(cfg, w, s);
    case PutBox(_, _) => DeliveryTableStep(cfg, w, s);
    case Remove(_) => DeliveryTableStep(cfg, w, s);
    case Subtract(_) => DeliveryTableStep(cfg, w, s);
    case _ => DeliveryTaskStep(cfg, w, s);
  }

  // Every reachable state.

  ghost predicate RelayOk(cfg: Config, w: World) {
    BytesOk(cfg, w) && AccountOk(w.hist, w.boxes) && DeliveryOk(w)
  }

  lemma RelayStepOk(cfg: Config, w: World, s: Step)
    requires RelayOk(cfg, w) && Enabled(w, s)
    ensures RelayOk(cfg, Apply(cfg, w, s))
  {
    BytesStep(cfg, w, s);
    hide DeliveryOk, AccountOk, Apply, Enabled;
    AccountStep(cfg, w, s);
    DeliveryStep(cfg, w, s);
  }

  lemma {:induction false} RelayAlways(cfg: Config, trace: seq<World>)
    requires Run(cfg, trace)
    ensures forall i :: 0 <= i < |trace| ==> RelayOk(cfg, trace[i])
  {
    StartBytes(cfg);
    assert RelayOk(cfg, Start);
    hide RelayOk, Enabled, Apply;
    var n := 0;
    while n < |trace| - 1
      invariant 0 <= n < |trace|
      invariant forall i :: 0 <= i <= n ==> RelayOk(cfg, trace[i])
    {
      assert Next(cfg, trace[n], trace[n + 1]);
      var s :| Enabled(trace[n], s) && trace[n + 1] == Apply(cfg, trace[n], s);
      RelayStepOk(cfg, trace[n], s);
      n := n + 1;
    }
  }

  /** The log only grows at its end, and a fate once met is final. */
  ghost predicate Extends(h: History, h': History) {
    && (forall box, i: nat :: InLog(h, box, i) ==> InLog(h', box, i) && h'.log[box][i] == h.log[box][i])
    && h.acked <= h'.acked && h.expired <= h'.expired && h.deleted <= h'.deleted
  }

  lemma HistoryStep(cfg: Config, w: World, s: Step)
    requires Enabled(w, s)
    ensures Extends(w.hist, Apply(cfg, w, s).hist)
  {
    hide PoppedIds, QueueIds, Unsent, SweptTable, SweptBytes, MailboxIdShapeOk, DepositStatus;
  }

  /** A message keeps its place in the log and its fate for the rest of the run. */
  lemma {:induction false} HistoryAlwaysExtends(cfg: Config, trace: seq<World>, m: nat, n: nat)
    requires Run(cfg, trace) && m <= n < |trace|
    ensures Extends(trace[m].hist, trace[n].hist)
    decreases n - m
  {
    hide Enabled, Apply;
    if m < n {
      assert Next(cfg, trace[m], trace[m + 1]);
      var s :| Enabled(trace[m], s) && trace[m + 1] == Apply(cfg, trace[m], s);
      HistoryStep(cfg, trace[m], s);
      HistoryAlwaysExtends(cfg, trace, m + 1, n);
    }
  }

  /** No lost wake-up: a parked task that deposits would wake has sent all that is queued, or a wake is waiting. */
  lemma NoLostWakeup(cfg: Config, trace: seq<World>, n: nat, c: Chan)
    requires Run(cfg, trace) && n < |trace|
    requires c in trace[n].subs && trace[n].subs[c].phase.Parked?
    requires trace[n].subs[c].box in trace[n].boxes && trace[n].boxes[trace[n].subs[c].box].notify == Some(c)
    ensures trace[n].subs[c].tokens > 0 ||
      forall i :: 0 <= i < |trace[n].boxes[trace[n].subs[c].box].queue| ==>
        trace[n].boxes[trace[n].subs[c].box].queue[i].id in trace[n].subs[c].sent
  {
    RelayAlways(cfg, trace);
    var w := trace[n];
    var s := w.subs[c];
    assert SubscriberOk(w.hist, w.boxes, s) && WakeOk(w.boxes, c, s);
    assert Handed(s) == s.wire;
    var q := w.boxes[s.box].queue;
    if s.tokens == 0 {
      forall i | 0 <= i < |q|
        ensures q[i].id in s.sent
      {
        InOwnIds(q, i);
      }
    }
  }

  /** One connection sends each message at most once, and in the order the relay accepted them. */
  lemma SentOnceInOrder(cfg: Config, trace: seq<World>, n: nat, c: Chan, i: nat, j: nat)
    requires Run(cfg, trace) && n < |trace| && c in trace[n].subs
    requires i < j < |trace[n].subs[c].wire|
    ensures var w := trace[n]; var s := w.subs[c];
      && s.wire[i] != s.wire[j]
      && exists a, b :: 0 <= a < b < |LogOf(w.hist, s.box)|
           && LogOf(w.hist, s.box)[a] == s.wire[i] && LogOf(w.hist, s.box)[b] == s.wire[j]
  {
    RelayAlways(cfg, trace);
    var w := trace[n];
    var s := w.subs[c];
    assert SubscriberOk(w.hist, w.boxes, s);
    assert Handed(s)[i] == s.wire[i] && Handed(s)[j] == s.wire[j];
    assert Pos(w.hist, s.wire[i]) < Pos(w.hist, s.wire[j]);
    var a, b := w.hist.slots[s.wire[i]].pos, w.hist.slots[s.wire[j]].pos;
    assert InLog(w.hist, s.box, a) && InLog(w.hist, s.box, b);
    assert LogOf(w.hist, s.box)[a] == s.wire[i] && LogOf(w.hist, s.box)[b] == s.wire[j];
  }

  function One(b: bool): nat { if b then 1 else 0 }

  /** A message answered 202 is afterwards queued, acked, expired or gone with its mailbox: exactly one of them. */
  lemma AcceptedIsAccounted(cfg: Config, trace: seq<World>, n: nat, box: string, i: nat)
    requires Run(cfg, trace) && n < |trace| && InLog(trace[n].hist, box, i)
    ensures var w := trace[n]; var id := w.hist.log[box][i];
      One(InQueue(w.boxes, box, id)) + One(id in w.hist.acked) + One(id in w.hist.expired)
        + One(id in w.hist.deleted) == 1
  {
    hide RelayOk, Run;
    RelayAlways(cfg, trace);
    AccountedOnce(cfg, trace[n], box, i);
  }

  lemma AccountedOnce(cfg: Config, w: World, box: string, i: nat)
    requires RelayOk(cfg, w) && InLog(w.hist, box, i)
    ensures var id := w.hist.log[box][i];
      One(InQueue(w.boxes, box, id)) + One(id in w.hist.acked) + One(id in w.hist.expired)
        + One(id in w.hist.deleted) == 1
  {
    hide BytesOk, DeliveryOk;
    var h, id := w.hist, w.hist.log[box][i];
    assert Belongs(h, id, box);
    if InQueue(w.boxes, box, id) {
      var k :| 0 <= k < |w.boxes[box].queue| && w.boxes[box].queue[k].id == id;
      assert QueueOk(h, box, w.boxes[box].queue);
      assert !Fated(h, id);
    } else {
      assert Fated(h, id);
    }
  }

  // A connection that was replaced, or whose mailbox is gone.

  predicate Replaced(w: World, c: Chan) {
    c in w.subs && (w.subs[c].box !in w.boxes || w.boxes[w.subs[c].box].notify != Some(c))
  }

  /** A scan ends the connection if and only if it was replaced; otherwise it takes up all that is unsent. */
  lemma ScanEndsReplaced(cfg: Config, w: World, c: Chan)
    requires Enabled(w, Collect(c))
    ensures var s, s' := w.subs[c], Apply(cfg, w, Collect(c)).subs[c];
      && (s'.phase.Ended? <==> Replaced(w, c))
      && (!Replaced(w, c) ==> forall id :: id in s'.frames <==> id !in s.sent && id in QueueIds(w.boxes[s.box].queue))
  {
    hide MailboxIdShapeOk;
  }

  /** It stays replaced, and is handed nothing more. */
  lemma ReplacedStep(cfg: Config, w: World, s: Step, c: Chan)
    requires Enabled(w, s) && Replaced(w, c)
    ensures var w' := Apply(cfg, w, s); Replaced(w', c) && Handed(w'.subs[c]) == Handed(w.subs[c])
  {
    hide MailboxIdShapeOk, Admissible, PoppedIds, QueueIds, SweptBytes, Popped, Unsent, Find;
  }

  /** Over every run: once replaced, a connection sends at most what it had already been handed. */
  lemma {:induction false} ReplacedSendsNoMore(cfg: Config, trace: seq<World>, m: nat, n: nat, c: Chan)
    requires Run(cfg, trace) && m <= n < |trace| && Replaced(trace[m], c)
    ensures Replaced(trace[n], c) && Handed(trace[n].subs[c]) == Handed(trace[m].subs[c])
    decreases n - m
  {
    hide Enabled, Apply, Handed;
    if m < n {
      ReplacedSendsNoMore(cfg, trace, m, n - 1, c);
      assert Next(cfg, trace[n - 1], trace[n - 1 + 1]);
      var s :| Enabled(trace[n - 1], s) && trace[n] == Apply(cfg, trace[n - 1], s);
      ReplacedStep(cfg, trace[n - 1], s, c);
    }
  }
}
