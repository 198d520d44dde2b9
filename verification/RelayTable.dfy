/**
 The relay's mailbox table: what each lock-protected operation does to it, as functions of the
 old table. RelayService runs the same operations in place; RelayWorld interleaves them.
 */
module RelayTable {
  import opened Bytes
  import opened Base64Url
  import opened Sums

  /** 16 bytes from the OS CSPRNG; only ever compared for equality. */
  type MsgId = nat
  /** The identity of a subscriber's wake channel (`same_channel`). */
  type Chan = nat
  /** A monotonic clock reading. */
  type Instant = nat

  datatype Config = Config(ttl: nat, maxMessages: nat, maxBytes: nat, maxMailboxes: nat)

  datatype Queued = Queued(id: MsgId, blob: seq<Byte>, depositedAt: Instant)

  datatype Mailbox = Mailbox(
    queue: seq<Queued>, queuedBytes: int, lastActivity: Option<Instant>, notify: Option<Chan>)

  type Table = map<string, Mailbox>

  datatype Status = Created | Accepted | BadRequest | NotFound | TooManyRequests | NoRoom | AtCap

  /** `Instant::duration_since`, which is zero when the argument is later. */
  function Since(now: Instant, at: Instant): nat { if now > at then now - at else 0 }

  function QueueBytes(q: seq<Queued>): nat {
    if q == [] then 0 else |q[0].blob| + QueueBytes(q[1..])
  }

  function FreshMailbox(at: Instant): Mailbox { Mailbox([], 0, Some(at), None) }

  /** Magic, version and minimum length; nothing past the fifth byte is read. */
  predicate Admissible(blob: seq<Byte>) {
    |blob| >= 9 && blob[..4] == [0x54, 0x5A, 0x43, 0x41] && blob[4] == 1
  }

  // Operations under the table lock.

  function CreateAt(t: Table, id: string, at: Instant): Table { t[id := FreshMailbox(at)] }

  /** Create-at-id: refused at the cap whether or not the id exists, otherwise idempotent. */
  function Put(cfg: Config, t: Table, id: string, at: Instant): (Table, bool) {
    if |t| >= cfg.maxMailboxes then (t, false)
    else if id in t then (t, true)
    else (CreateAt(t, id, at), true)
  }

  predicate HasRoom(cfg: Config, mb: Mailbox, size: nat) {
    |mb.queue| < cfg.maxMessages && mb.queuedBytes + size <= cfg.maxBytes
  }

  function Enqueue(mb: Mailbox, id: MsgId, blob: seq<Byte>, depositedAt: Instant, activeAt: Instant): Mailbox {
    mb.(queue := mb.queue + [Queued(id, blob, depositedAt)],
        queuedBytes := mb.queuedBytes + |blob|, lastActivity := Some(activeAt))
  }

  /** The deposit handler's verdict; `bySource` and `byBox` are the limiters' answers. */
  function DepositStatus(cfg: Config, t: Table, id: string, blob: seq<Byte>, bySource: bool, byBox: bool): Status {
    if !MailboxIdShapeOk(id) then NotFound
    else if !bySource then TooManyRequests
    else if !Admissible(blob) then BadRequest
    else if id !in t then NotFound
    else if !byBox then TooManyRequests
    else if !HasRoom(cfg, t[id], |blob|) then NoRoom
    else Accepted
  }

  predicate UrlSafe(c: char) {
    'A' <= c <= 'Z' || 'a' <= c <= 'z' || '0' <= c <= '9' || c == '-' || c == '_'
  }

  lemma ShapeIs(id: string)
    ensures MailboxIdShapeOk(id) <==> |id| == 43 && forall i :: 0 <= i < 43 ==> UrlSafe(id[i])
  {
    assert forall c :: UrlSafe(c) <==> Value(c).Some?;
    hide Value, UrlSafe;
  }

  /**
   When each answer is given. Accepted: exactly with a well-shaped id, both limiters' consent, an admissible
   envelope, an existing mailbox, and room for one more message and its bytes.
   */
  lemma DepositAnswers(cfg: Config, t: Table, id: string, blob: seq<Byte>, bySource: bool, byBox: bool)
    ensures var shape := |id| == 43 && forall i :: 0 <= i < 43 ==> UrlSafe(id[i]);
      var envelope := |blob| >= 9 && blob[0] == 0x54 && blob[1] == 0x5A && blob[2] == 0x43 && blob[3] == 0x41
        && blob[4] == 1;
      var room := id in t && |t[id].queue| + 1 <= cfg.maxMessages && t[id].queuedBytes + |blob| <= cfg.maxBytes;
      var answer := DepositStatus(cfg, t, id, blob, bySource, byBox);
      && (answer == Accepted <==> shape && bySource && envelope && byBox && room)
      && (answer == NoRoom <==> shape && bySource && envelope && byBox && id in t && !room)
      && (answer == NotFound <==> !shape || (bySource && envelope && id !in t))
      && (answer == BadRequest <==> shape && bySource && !envelope)
      && (answer == TooManyRequests <==> shape && (!bySource || (envelope && id in t && !byBox)))
  {
    ShapeIs(id);
    hide MailboxIdShapeOk, UrlSafe;
    if |blob| >= 9 {
      assert blob[..4] == [blob[0], blob[1], blob[2], blob[3]];
    }
  }

  /**
   The relay is blind: of a deposit's content only the length and the first five bytes matter, and a source
   over its limit or a malformed deposit gets the same answer whatever mailboxes exist.
   */
  lemma DepositIsBlind(
    cfg: Config, t: Table, t': Table, id: string, blob: seq<Byte>, blob': seq<Byte>, bySource: bool, byBox: bool)
    ensures |blob| == |blob'| && (|blob| >= 5 ==> blob[..5] == blob'[..5]) ==>
      DepositStatus(cfg, t, id, blob, bySource, byBox) == DepositStatus(cfg, t, id, blob', bySource, byBox)
    ensures !bySource || !Admissible(blob) || !MailboxIdShapeOk(id) ==>
      DepositStatus(cfg, t, id, blob, bySource, byBox) == DepositStatus(cfg, t', id, blob, bySource, byBox)
  {
    hide MailboxIdShapeOk;
    if |blob| == |blob'| && |blob| >= 5 && blob[..5] == blob'[..5] {
      assert blob[..4] == blob[..5][..4] && blob'[..4] == blob'[..5][..4];
      assert blob[4] == blob[..5][4] && blob'[4] == blob'[..5][4];
    }
  }

  /** Position of a message id in a queue, or the queue's length. */
  function Find(q: seq<Queued>, id: MsgId): (i: nat)
    ensures i <= |q|
    ensures i < |q| ==> q[i].id == id
    ensures forall j :: 0 <= j < i ==> q[j].id != id
  {
    if q == [] || q[0].id == id then 0 else 1 + Find(q[1..], id)
  }

  function Dequeue(mb: Mailbox, i: nat, at: Instant): Mailbox
    requires i < |mb.queue|
  {
    mb.(queue := mb.queue[..i] + mb.queue[i + 1..],
        queuedBytes := mb.queuedBytes - |mb.queue[i].blob|, lastActivity := Some(at))
  }

  // The sweep.

  predicate Expired(cfg: Config, now: Instant, m: Queued) { Since(now, m.depositedAt) > cfg.ttl }

  /** How many messages the front-only loop pops. */
  function Popped(cfg: Config, now: Instant, q: seq<Queued>): (n: nat)
    ensures n <= |q|
    ensures forall i :: 0 <= i < n ==> Expired(cfg, now, q[i])
    ensures n < |q| ==> !Expired(cfg, now, q[n])
  {
    if q != [] && Expired(cfg, now, q[0]) then 1 + Popped(cfg, now, q[1..]) else 0
  }

  function DroppedBytes(cfg: Config, now: Instant, mb: Mailbox): nat {
    QueueBytes(mb.queue[..Popped(cfg, now, mb.queue)])
  }

  function SweptMailbox(cfg: Config, now: Instant, mb: Mailbox): Mailbox {
    mb.(queue := mb.queue[Popped(cfg, now, mb.queue)..],
        queuedBytes := mb.queuedBytes - DroppedBytes(cfg, now, mb))
  }

  predicate KeptBySweep(cfg: Config, now: Instant, mb: Mailbox) {
    mb.lastActivity.Some? ==> Since(now, mb.lastActivity.value) <= cfg.ttl
  }

  function SweptTable(cfg: Config, now: Instant, t: Table): Table {
    map id | id in t && KeptBySweep(cfg, now, t[id]) :: SweptMailbox(cfg, now, t[id])
  }

  /** What a sweep subtracts from the global counter: popped bytes, never a dropped mailbox's counter. */
  ghost function SweptBytes(cfg: Config, now: Instant, t: Table): int {
    SumMap(map id | id in t :: DroppedBytes(cfg, now, t[id]) as int)
  }

  ghost function TableBytes(t: Table): int {
    SumMap(map id | id in t :: t[id].queuedBytes)
  }

  /** The ids a subscriber that already sent `sent` must still send, in queue order. */
  function Unsent(q: seq<Queued>, sent: set<MsgId>): (ids: seq<MsgId>)
    ensures forall id :: id in ids <==> id !in sent && exists i :: 0 <= i < |q| && q[i].id == id
  {
    if q == [] then []
    else if q[0].id in sent then Unsent(q[1..], sent)
    else [q[0].id] + Unsent(q[1..], sent)
  }

  // Laws of queues.

  lemma {:induction false} QueueBytesConcat(a: seq<Queued>, b: seq<Queued>)
    ensures QueueBytes(a + b) == QueueBytes(a) + QueueBytes(b)
  {
    if a == [] {
      assert a + b == b;
    } else {
      assert (a + b)[1..] == a[1..] + b;
      QueueBytesConcat(a[1..], b);
    }
  }

  lemma QueueBytesRemove(q: seq<Queued>, i: nat)
    requires i < |q|
    ensures QueueBytes(q[..i] + q[i + 1..]) == QueueBytes(q) - |q[i].blob|
  {
    assert q == q[..i] + ([q[i]] + q[i + 1..]);
    QueueBytesConcat(q[..i], [q[i]] + q[i + 1..]);
    QueueBytesConcat([q[i]], q[i + 1..]);
    QueueBytesConcat(q[..i], q[i + 1..]);
  }

  predicate SortedByDeposit(q: seq<Queued>) {
    forall i, j :: 0 <= i < j < |q| ==> q[i].depositedAt <= q[j].depositedAt
  }

  /** On a queue in deposit order, popping at the front pops exactly the expired messages. */
  lemma SweepPopsExactlyExpired(cfg: Config, now: Instant, q: seq<Queued>)
    requires SortedByDeposit(q)
    ensures forall i :: 0 <= i < |q| ==> (now > q[i].depositedAt + cfg.ttl <==> i < Popped(cfg, now, q))
  {
    var n := Popped(cfg, now, q);
    forall i | n <= i < |q|
      ensures !Expired(cfg, now, q[i])
    {
      assert i == n || q[n].depositedAt <= q[i].depositedAt;
    }
  }

  /** Out of deposit order the front-only loop leaves an expired message behind: sortedness is needed. */
  lemma SweepNeedsOrder(cfg: Config, now: Instant, q: seq<Queued>)
    ensures (forall i :: 0 <= i < |q| ==> (now > q[i].depositedAt + cfg.ttl <==> i < Popped(cfg, now, q))) <==>
      forall i, j :: 0 <= i < j < |q| && now > q[j].depositedAt + cfg.ttl ==> now > q[i].depositedAt + cfg.ttl
  {
    var n := Popped(cfg, now, q);
    if forall i, j :: 0 <= i < j < |q| && Expired(cfg, now, q[j]) ==> Expired(cfg, now, q[i]) {
      assert forall i :: n < i < |q| ==> !Expired(cfg, now, q[i]);
    }
  }

  /**
   What keeps the sweep right: the counter is the queue's size, the queue is in deposit order, and
   no activity stamp is older than a queued deposit.
   */
  ghost predicate MailboxOk(cfg: Config, clock: Instant, mb: Mailbox) {
    && mb.queuedBytes == QueueBytes(mb.queue) <= cfg.maxBytes
    && |mb.queue| <= cfg.maxMessages
    && SortedByDeposit(mb.queue)
    && mb.lastActivity.Some? && mb.lastActivity.value <= clock
    && forall i :: 0 <= i < |mb.queue| ==> mb.queue[i].depositedAt <= mb.lastActivity.value
  }

  ghost predicate TableOk(cfg: Config, clock: Instant, t: Table) {
    && |t| <= cfg.maxMailboxes
    && forall id :: id in t ==> MailboxIdShapeOk(id) && MailboxOk(cfg, clock, t[id])
  }

  /** A mailbox the sweep drops as idle was emptied by the same sweep: no byte leaves uncounted. */
  lemma IdleMailboxIsEmpty(cfg: Config, clock: Instant, now: Instant, mb: Mailbox)
    requires MailboxOk(cfg, clock, mb) && now > mb.lastActivity.value + cfg.ttl
    ensures Popped(cfg, now, mb.queue) == |mb.queue|
    ensures SweptMailbox(cfg, now, mb).queue == [] && SweptMailbox(cfg, now, mb).queuedBytes == 0
  {
    forall i | 0 <= i < |mb.queue|
      ensures Expired(cfg, now, mb.queue[i])
    {}
    assert mb.queue[..|mb.queue|] == mb.queue;
  }

  lemma DroppedIsIdle(cfg: Config, clock: Instant, now: Instant, mb: Mailbox)
    requires MailboxOk(cfg, clock, mb)
    ensures mb.lastActivity.Some? && (KeptBySweep(cfg, now, mb) <==> now <= mb.lastActivity.value + cfg.ttl)
  {}

  lemma SweptMailboxOk(cfg: Config, clock: Instant, now: Instant, mb: Mailbox)
    requires MailboxOk(cfg, clock, mb)
    ensures MailboxOk(cfg, clock, SweptMailbox(cfg, now, mb))
    ensures mb.queuedBytes == SweptMailbox(cfg, now, mb).queuedBytes + DroppedBytes(cfg, now, mb)
  {
    var n := Popped(cfg, now, mb.queue);
    assert mb.queue == mb.queue[..n] + mb.queue[n..];
    QueueBytesConcat(mb.queue[..n], mb.queue[n..]);
  }

  lemma EnqueueOk(cfg: Config, clock: Instant, mb: Mailbox, id: MsgId, blob: seq<Byte>, t1: Instant, t2: Instant)
    requires MailboxOk(cfg, clock, mb) && HasRoom(cfg, mb, |blob|) && clock <= t1 <= t2
    ensures MailboxOk(cfg, t2, Enqueue(mb, id, blob, t1, t2))
  {
    QueueBytesConcat(mb.queue, [Queued(id, blob, t1)]);
  }

  lemma DequeueOk(cfg: Config, clock: Instant, mb: Mailbox, i: nat, at: Instant)
    requires MailboxOk(cfg, clock, mb) && i < |mb.queue| && clock <= at
    ensures MailboxOk(cfg, at, Dequeue(mb, i, at))
  {
    QueueBytesRemove(mb.queue, i);
    var q, r := mb.queue, Dequeue(mb, i, at).queue;
    forall k | 0 <= k < |r|
      ensures r[k] == q[if k < i then k else k + 1]
    {}
  }

  lemma MailboxOkLater(cfg: Config, clock: Instant, later: Instant, mb: Mailbox)
    requires MailboxOk(cfg, clock, mb) && clock <= later
    ensures MailboxOk(cfg, later, mb)
  {}

  // Table-wide byte accounting.

  lemma TableBytesUpdate(t: Table, id: string, mb: Mailbox)
    ensures TableBytes(t[id := mb]) == TableBytes(t) + mb.queuedBytes - (if id in t then t[id].queuedBytes else 0)
  {
    var m := map k | k in t :: t[k].queuedBytes;
    SumMapUpdate(m, id, mb.queuedBytes);
    var t' := t[id := mb];
    assert (map k | k in t' :: t'[k].queuedBytes) == m[id := mb.queuedBytes];
  }

  lemma TableBytesRemove(t: Table, id: string)
    requires id in t
    ensures TableBytes(t - {id}) == TableBytes(t) - t[id].queuedBytes
  {
    var m := map k | k in t :: t[k].queuedBytes;
    SumMapRemove(m, id);
    var t' := t - {id};
    assert (map k | k in t' :: t'[k].queuedBytes) == m - {id};
  }

  lemma MulMonotone(a: nat, b: nat, c: nat)
    requires a <= b
    ensures a * c <= b * c
  {}

  lemma TableBytesBounds(cfg: Config, clock: Instant, t: Table)
    requires TableOk(cfg, clock, t)
    ensures 0 <= TableBytes(t) <= cfg.maxMailboxes * cfg.maxBytes
  {
    hide InAlphabet, SortedByDeposit;
    var m := map k | k in t :: t[k].queuedBytes;
    forall k | k in m
      ensures 0 <= m[k] <= cfg.maxBytes
    {
      assert MailboxOk(cfg, clock, t[k]);
    }
    SumMapBounds(m, cfg.maxBytes);
    assert m.Keys == t.Keys;
    assert |m| == |m.Keys| == |t.Keys| == |t|;
    MulMonotone(|m|, cfg.maxMailboxes, cfg.maxBytes);
  }

  /** The sweep's one subtraction accounts for every byte that leaves the table. */
  lemma SweepConserves(cfg: Config, clock: Instant, now: Instant, t: Table)
    requires TableOk(cfg, clock, t)
    ensures TableOk(cfg, clock, SweptTable(cfg, now, t))
    ensures TableBytes(t) == TableBytes(SweptTable(cfg, now, t)) + SweptBytes(cfg, now, t)
    ensures SweptBytes(cfg, now, t) >= 0
  {
    hide InAlphabet, MailboxOk, SweptMailbox, DroppedBytes, KeptBySweep;
    var t' := SweptTable(cfg, now, t);
    var total := map id | id in t :: t[id].queuedBytes;
    var kept := map id | id in t' :: t'[id].queuedBytes;
    var lost := map id | id in t :: DroppedBytes(cfg, now, t[id]) as int;
    forall id | id in t
      ensures MailboxOk(cfg, clock, SweptMailbox(cfg, now, t[id]))
      ensures total[id] == (if id in kept then kept[id] else 0) + lost[id]
    {
      SweptMailboxOk(cfg, clock, now, t[id]);
      if id !in kept {
        DroppedIsIdle(cfg, clock, now, t[id]);
        IdleMailboxIsEmpty(cfg, clock, now, t[id]);
      }
    }
    SumMapSplit(total, kept, lost);
    SweptCount(cfg, now, t);
    SumMapNonNegative(lost);
  }

  lemma SweptCount(cfg: Config, now: Instant, t: Table)
    ensures |SweptTable(cfg, now, t)| <= |t|
  {
    var t' := SweptTable(cfg, now, t);
    assert t'.Keys <= t.Keys;
    SubsetCount(t'.Keys, t.Keys);
  }
}
