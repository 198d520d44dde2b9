/** The relay's process state and its handlers, run in place; each is held to its RelayTable function. */
module RelayService {
  import opened Bytes
  import opened Base64Url
  import opened Sums
  import opened RelayTable

  class AppState {
    const cfg: Config
    var boxes: Table
    var globalBytes: int

    constructor (cfg: Config)
      ensures this.cfg == cfg && boxes == map[] && globalBytes == 0
    {
      this.cfg := cfg;
      boxes, globalBytes := map[], 0;
    }

    /** Draws 256-bit values until one names no mailbox. `draws` is the CSPRNG's output. */
    method CreateMailbox(draws: seq<seq<Byte>>, at: Instant) returns (r: Option<string>)
      requires forall i :: 0 <= i < |draws| ==> |draws[i]| == 32
      requires exists i :: 0 <= i < |draws| && Encode(draws[i]) !in boxes
      modifies this`boxes
      ensures r.None? <==> |old(boxes)| >= cfg.maxMailboxes
      ensures r.None? ==> boxes == old(boxes)
      ensures r.Some? ==>
        r.value !in old(boxes) && MailboxIdShapeOk(r.value) && boxes == CreateAt(old(boxes), r.value, at)
    {
      hide Encode, InAlphabet;
      if |boxes| >= cfg.maxMailboxes {
        return None;
      }
      var i := 0;
      while true
        invariant 0 <= i < |draws| && boxes == old(boxes)
        invariant exists k :: i <= k < |draws| && Encode(draws[k]) !in boxes
        decreases |draws| - i
      {
        var id := EncodeLoop(draws[i]);
        if id !in boxes {
          MailboxIds(draws[i], draws[i]);
          boxes := boxes[id := Mailbox([], 0, Some(at), None)];
          return Some(id);
        }
        i := i + 1;
      }
    }

    method PutMailbox(id: string, at: Instant) returns (exists_: bool)
      modifies this`boxes
      ensures (boxes, exists_) == Put(cfg, old(boxes), id, at)
      ensures exists_ <==> |old(boxes)| < cfg.maxMailboxes
      ensures forall b :: b in old(boxes) ==> b in boxes && boxes[b] == old(boxes)[b]
      ensures forall b :: b in boxes <==> b in old(boxes) || (b == id && exists_)
    {
      if |boxes| >= cfg.maxMailboxes {
        return false;
      }
      if id !in boxes {
        boxes := boxes[id := Mailbox([], 0, Some(at), None)];
      }
      return true;
    }

    /** `woken` is the channel the deposit wakes, if any. */
    method Deposit(id: string, blob: seq<Byte>, bySource: bool, byBox: bool, msg: MsgId, t1: Instant, t2: Instant)
      returns (status: Status, woken: Option<Chan>)
      modifies this`boxes, this`globalBytes
      ensures status == DepositStatus(cfg, old(boxes), id, blob, bySource, byBox)
      ensures status != Accepted ==> boxes == old(boxes) && globalBytes == old(globalBytes) && woken.None?
      ensures status == Accepted ==>
        && id in old(boxes) && woken == old(boxes[id].notify)
        && boxes == old(boxes)[id := Enqueue(old(boxes)[id], msg, blob, t1, t2)]
        && globalBytes == old(globalBytes) + |blob|
    {
      woken := None;
      if !MailboxIdShapeOk(id) {
        return NotFound, None;
      }
      if !bySource {
        return TooManyRequests, None;
      }
      if !Admissible(blob) {
        return BadRequest, None;
      }
      if id !in boxes {
        return NotFound, None;
      }
      if !byBox {
        return TooManyRequests, None;
      }
      var mailbox := boxes[id];
      if |mailbox.queue| >= cfg.maxMessages || mailbox.queuedBytes + |blob| > cfg.maxBytes {
        return NoRoom, None;
      }
      mailbox := mailbox.(queuedBytes := mailbox.queuedBytes + |blob|);
      globalBytes := globalBytes + |blob|;
      mailbox := mailbox.(queue := mailbox.queue + [Queued(msg, blob, t1)]);
      mailbox := mailbox.(lastActivity := Some(t2));
      boxes := boxes[id := mailbox];
      return Accepted, mailbox.notify;
    }

    /** DELETE under the lock: answers the removed mailbox's byte count, which SubtractDeleted takes later. */
    method RemoveMailbox(id: string) returns (removed: Option<int>)
      modifies this`boxes
      ensures removed.Some? <==> MailboxIdShapeOk(id) && id in old(boxes)
      ensures removed.Some? ==> removed.value == old(boxes)[id].queuedBytes && boxes == old(boxes) - {id}
      ensures removed.None? ==> boxes == old(boxes)
    {
      removed := None;
      if MailboxIdShapeOk(id) {
        if id in boxes {
          removed := Some(boxes[id].queuedBytes);
          boxes := boxes - {id};
        }
      }
    }

    method SubtractDeleted(bytes: int)
      modifies this`globalBytes
      ensures globalBytes == old(globalBytes) - bytes
    {
      globalBytes := globalBytes - bytes;
    }

    /** Removes an acked message; an unknown mailbox or id changes nothing. */
    method HandleAck(id: string, acked: MsgId, at: Instant)
      modifies this`boxes, this`globalBytes
      ensures id in old(boxes) && Find(old(boxes)[id].queue, acked) < |old(boxes)[id].queue| ==>
        var i := Find(old(boxes)[id].queue, acked);
        && boxes == old(boxes)[id := Dequeue(old(boxes)[id], i, at)]
        && globalBytes == old(globalBytes) - |old(boxes)[id].queue[i].blob|
      ensures !(id in old(boxes) && Find(old(boxes)[id].queue, acked) < |old(boxes)[id].queue|) ==>
        boxes == old(boxes) && globalBytes == old(globalBytes)
    {
      if id in boxes {
        var mailbox := boxes[id];
        var pos := 0;
        while pos < |mailbox.queue| && mailbox.queue[pos].id != acked
          invariant 0 <= pos <= |mailbox.queue|
          invariant forall j :: 0 <= j < pos ==> mailbox.queue[j].id != acked
        {
          pos := pos + 1;
        }
        if pos < |mailbox.queue| {
          var removed := mailbox.queue[pos];
          mailbox := mailbox.(queue := mailbox.queue[..pos] + mailbox.queue[pos + 1..]);
          mailbox := mailbox.(queuedBytes := mailbox.queuedBytes - |removed.blob|);
          globalBytes := globalBytes - |removed.blob|;
          mailbox := mailbox.(lastActivity := Some(at));
          boxes := boxes[id := mailbox];
        }
      }
    }

    /** The delivery loop's scan: `None` when delivery must end, otherwise the ids to send, oldest first. */
    method CollectFrames(id: string, chan: Chan, sent: set<MsgId>) returns (frames: Option<seq<MsgId>>)
      ensures frames.None? <==> id !in boxes || boxes[id].notify != Some(chan)
      ensures frames.Some? ==> frames.value == Unsent(boxes[id].queue, sent)
    {
      if id !in boxes || boxes[id].notify != Some(chan) {
        return None;
      }
      var q := boxes[id].queue;
      var out: seq<MsgId> := [];
      var i := 0;
      assert q[0..] == q;
      while i < |q|
        invariant 0 <= i <= |q|
        invariant out + Unsent(q[i..], sent) == Unsent(q, sent)
      {
        assert q[i..][1..] == q[i + 1..];
        if q[i].id !in sent {
          out := out + [q[i].id];
        }
        i := i + 1;
      }
      return Some(out);
    }

    /** The front-only pop of one mailbox, inside the sweep's `retain`. */
    method SweepMailbox(now: Instant, before: Mailbox) returns (after: Mailbox, dropped: nat)
      ensures after == SweptMailbox(cfg, now, before) && dropped == DroppedBytes(cfg, now, before)
    {
      hide QueueBytes, Popped;
      after, dropped := before, 0;
      ghost var n := 0;
      FrontOf(cfg, now, before.queue, 0);
      while |after.queue| > 0 && Since(now, after.queue[0].depositedAt) > cfg.ttl
        invariant 0 <= n <= |before.queue| && after == before.(queue := before.queue[n..])
        invariant dropped == QueueBytes(before.queue[..n])
        invariant Popped(cfg, now, before.queue) == n + Popped(cfg, now, before.queue[n..])
        decreases |after.queue|
      {
        var front := after.queue[0];
        dropped := dropped + |front.blob|;
        FrontOf(cfg, now, before.queue, n);
        after := after.(queue := after.queue[1..]);
        n := n + 1;
      }
      FrontOf(cfg, now, before.queue, n);
      if dropped > 0 {
        after := after.(queuedBytes := after.queuedBytes - dropped);
      }
    }

    method Sweep(now: Instant)
      modifies this`boxes, this`globalBytes
      ensures boxes == SweptTable(cfg, now, old(boxes))
      ensures globalBytes == old(globalBytes) - SweptBytes(cfg, now, old(boxes))
    {
      hide SweptMailbox, DroppedBytes, SumMap, KeptBySweep, SweptTable, SweptUpTo;
      ghost var before := boxes;
      SweptStart(cfg, now, before);
      ghost var drops := map id | id in before :: DroppedBytes(cfg, now, before[id]) as int;
      ghost var done: map<string, int> := map[];
      var kept: Table := map[];
      var todo := boxes.Keys;
      SumMapEmpty<string>();
      while todo != {}
        invariant boxes == before && todo <= before.Keys
        invariant done == drops - todo && globalBytes == old(globalBytes) - SumMap(done)
        invariant kept == SweptUpTo(cfg, now, before, todo)
        decreases |todo|
      {
        var id :| id in todo;
        var mailbox, dropped := SweepMailbox(now, boxes[id]);
        globalBytes := globalBytes - dropped;
        SumMapUpdate(done, id, dropped);
        done := done[id := dropped];
        SweptNext(cfg, now, before, todo, id);
        if mailbox.lastActivity.None? || Since(now, mailbox.lastActivity.value) <= cfg.ttl {
          kept := kept[id := mailbox];
        }
        todo := todo - {id};
      }
      assert drops - {} == drops;
      boxes := kept;
    }
  }

  /** What the popping loop needs to know at position `n`. */
  lemma FrontOf(cfg: Config, now: Instant, q: seq<Queued>, n: nat)
    requires n <= |q|
    ensures n == 0 ==> q[..0] == [] && q[0..] == q && QueueBytes(q[..0]) == 0
    ensures n < |q| ==> q[n..][0] == q[n] && q[n..][1..] == q[n + 1..]
    ensures n < |q| ==> QueueBytes(q[..n + 1]) == QueueBytes(q[..n]) + |q[n].blob|
    ensures n < |q| && Expired(cfg, now, q[n]) ==> Popped(cfg, now, q[n..]) == 1 + Popped(cfg, now, q[n + 1..])
    ensures n == |q| || !Expired(cfg, now, q[n]) ==> Popped(cfg, now, q[n..]) == 0
  {
    if n < |q| {
      assert q[..n + 1] == q[..n] + [q[n]];
      QueueBytesConcat(q[..n], [q[n]]);
      assert QueueBytes([q[n]]) == |q[n].blob| + QueueBytes([]);
      assert q[n..][1..] == q[n + 1..];
    }
  }

  lemma SumMapEmpty<K>()
    ensures SumMap<K>(map[]) == 0
  {}

  /** The sweep's result for the mailboxes not in `todo`. */
  function SweptUpTo(cfg: Config, now: Instant, t: Table, todo: set<string>): Table {
    map id | id in t && id !in todo && KeptBySweep(cfg, now, t[id]) :: SweptMailbox(cfg, now, t[id])
  }

  lemma SweptStart(cfg: Config, now: Instant, t: Table)
    ensures SweptUpTo(cfg, now, t, t.Keys) == map[] && SweptUpTo(cfg, now, t, {}) == SweptTable(cfg, now, t)
  {
    hide SweptMailbox, KeptBySweep;
  }

  lemma SweptNext(cfg: Config, now: Instant, t: Table, todo: set<string>, id: string)
    requires id in t && id in todo
    ensures var mb, kept := SweptMailbox(cfg, now, t[id]), SweptUpTo(cfg, now, t, todo);
      SweptUpTo(cfg, now, t, todo - {id}) ==
        if mb.lastActivity.None? || Since(now, mb.lastActivity.value) <= cfg.ttl then kept[id := mb] else kept
  {
    assert SweptMailbox(cfg, now, t[id]).lastActivity == t[id].lastActivity;
    hide SweptMailbox;
  }
}
