/**
 Sending: rows are inserted pending, and flush passes, one at a time per conversation, deposit them in row
 order and mark them. Interleaved with any number of senders and other conversations, what the relay has
 accepted is a prefix of the outgoing rows without the permanently refused ones, each exactly once.
 */
module Flush {
  import opened Bytes

  datatype Status = Pending | Sent | Received

  datatype Row = Row(id: nat, conv: nat, outgoing: bool, body: nat, status: Status)

  /** A pending message as a pass carries it, and as the relay takes it. */
  datatype Entry = Entry(id: nat, body: nat)

  /** How a deposit ends: 2xx; 400 or 413; anything else. */
  datatype Outcome = Accepted | Permanent | Transient

  // The message table.

  function Outgoing(rows: seq<Row>, c: nat): seq<Row> {
    if rows == [] then []
    else (if rows[0].conv == c && rows[0].outgoing then [rows[0]] else []) + Outgoing(rows[1..], c)
  }

  function EntryOf(row: Row): Entry { Entry(row.id, row.body) }

  function PendingChat(rows: seq<Row>, c: nat): seq<Entry> {
    if rows == [] then []
    else
      (if rows[0].conv == c && rows[0].outgoing && rows[0].status.Pending? then [EntryOf(rows[0])] else [])
      + PendingChat(rows[1..], c)
  }

  function MarkedRow(row: Row, id: nat): Row { if row.id == id then row.(status := Sent) else row }

  function Marked(rows: seq<Row>, id: nat): seq<Row> {
    seq(|rows|, i requires 0 <= i < |rows| => MarkedRow(rows[i], id))
  }

  predicate DistinctIds(rows: seq<Row>) { forall i, j :: 0 <= i < j < |rows| ==> rows[i].id != rows[j].id }

  class Store {
    var rows: seq<Row>

    constructor ()
      ensures rows == []
    {
      rows := [];
    }

    method Insert(row: Row)
      modifies this
      ensures rows == old(rows) + [row]
    {
      rows := rows + [row];
    }

    method MarkMessageSent(id: nat)
      modifies this
      ensures rows == Marked(old(rows), id) && |rows| == |old(rows)|
      ensures forall i :: 0 <= i < |rows| ==>
        rows[i] == if old(rows)[i].id == id then old(rows)[i].(status := Sent) else old(rows)[i]
    {
      var i, out := 0, [];
      while i < |rows|
        invariant 0 <= i <= |rows| && rows == old(rows) && out == Marked(rows, id)[..i]
      {
        out := out + [MarkedRow(rows[i], id)];
        i := i + 1;
      }
      rows := out;
    }

    method ReadPendingChat(c: nat) returns (out: seq<Entry>)
      ensures out == PendingChat(rows, c)
    {
      out := [];
      var i := 0;
      assert rows[0..] == rows && PendingChat([], c) == [];
      hide PendingChat;
      while i < |rows|
        invariant 0 <= i <= |rows| && out + PendingChat(rows[i..], c) == PendingChat(rows, c)
      {
        assert rows[i..][0] == rows[i] && rows[i..][1..] == rows[i + 1..];
        PendingStep(rows[i..], c);
        assert out + (PendingOne(rows[i], c) + PendingChat(rows[i + 1..], c)) ==
          (out + PendingOne(rows[i], c)) + PendingChat(rows[i + 1..], c);
        if rows[i].conv == c && rows[i].outgoing && rows[i].status.Pending? {
          out := out + [EntryOf(rows[i])];
        }
        i := i + 1;
      }
      assert rows[i..] == [];
    }

    /** One pass; `log` collects what the relay accepts. */
    method FlushPending(c: nat, outcomes: seq<Outcome>, log: seq<Entry>) returns (log': seq<Entry>)
      modifies this
      ensures rows == PassRows(old(rows), PendingChat(old(rows), c), outcomes)
      ensures log' == log + PassLog(PendingChat(old(rows), c), outcomes)
      ensures DistinctIds(old(rows)) ==>
        && |rows| == |old(rows)|
        && forall i :: 0 <= i < |rows| ==>
             rows[i] == if Reached(old(rows), c, outcomes, i) then old(rows)[i].(status := Sent) else old(rows)[i]
    {
      hide PendingChat, Marked, DistinctIds, Reached;
      log' := log;
      PassMarksExactly(rows, c, outcomes);
      var pending := ReadPendingChat(c);
      var i := 0;
      while i < |pending|
        invariant 0 <= i <= |pending| && i <= |outcomes|
        invariant PassRows(rows, pending[i..], outcomes[i..]) == PassRows(old(rows), pending, outcomes)
        invariant log' + PassLog(pending[i..], outcomes[i..]) == log + PassLog(pending, outcomes)
      {
        assert pending[i..][0] == pending[i] && pending[i..][1..] == pending[i + 1..];
        if i == |outcomes| || outcomes[i] == Transient {
          assert outcomes[i..] == [] || outcomes[i..][0] == Transient;
          return;
        }
        assert outcomes[i..][0] == outcomes[i] && outcomes[i..][1..] == outcomes[i + 1..];
        if outcomes[i] == Accepted {
          log' := log' + [pending[i]];
        }
        MarkMessageSent(pending[i].id);
        i := i + 1;
      }
      assert pending[i..] == [];
    }
  }

  /** How many deposits are answered before the first transient failure. */
  function Answered(outcomes: seq<Outcome>): nat {
    if outcomes == [] || outcomes[0].Transient? then 0 else 1 + Answered(outcomes[1..])
  }

  /** Row `i` is a pending outgoing row of `c`, and as many deposits are answered as such rows come up to it. */
  predicate Reached(rows: seq<Row>, c: nat, outcomes: seq<Outcome>, i: nat)
    requires i < |rows|
  {
    && rows[i].conv == c && rows[i].outgoing && rows[i].status == Pending
    && |PendingChat(rows[..i], c)| < Answered(outcomes)
  }

  function PassRows(rows: seq<Row>, pending: seq<Entry>, outcomes: seq<Outcome>): seq<Row>
    decreases |pending|
  {
    if pending == [] || outcomes == [] || outcomes[0].Transient? then rows
    else PassRows(Marked(rows, pending[0].id), pending[1..], outcomes[1..])
  }

  function PassLog(pending: seq<Entry>, outcomes: seq<Outcome>): seq<Entry>
    decreases |pending|
  {
    if pending == [] || outcomes == [] || outcomes[0].Transient? then []
    else (if outcomes[0].Accepted? then [pending[0]] else []) + PassLog(pending[1..], outcomes[1..])
  }

  lemma {:induction false} PendingConcat(a: seq<Row>, b: seq<Row>, c: nat)
    ensures PendingChat(a + b, c) == PendingChat(a, c) + PendingChat(b, c)
  {
    if a == [] {
      assert a + b == b;
    } else {
      var ab := a + b;
      assert ab != [] && ab[0] == a[0] && ab[1..] == a[1..] + b;
      PendingStep(a, c);
      PendingStep(ab, c);
      hide PendingChat;
      PendingConcat(a[1..], b, c);
      assert PendingOne(a[0], c) + (PendingChat(a[1..], c) + PendingChat(b, c)) ==
        (PendingOne(a[0], c) + PendingChat(a[1..], c)) + PendingChat(b, c);
    }
  }

  function PendingOne(row: Row, c: nat): seq<Entry> {
    if row.conv == c && row.outgoing && row.status.Pending? then [EntryOf(row)] else []
  }

  lemma PendingStep(rows: seq<Row>, c: nat)
    requires rows != []
    ensures PendingChat(rows, c) == PendingOne(rows[0], c) + PendingChat(rows[1..], c)
  {}

  /** Where the first pending entry is: everything before it is not pending in `c`. */
  lemma {:induction false} FirstPending(rows: seq<Row>, c: nat) returns (k: nat)
    requires PendingChat(rows, c) != []
    ensures k < |rows| && rows[k].conv == c && rows[k].outgoing && rows[k].status.Pending?
    ensures EntryOf(rows[k]) == PendingChat(rows, c)[0] && PendingChat(rows[..k], c) == []
    ensures PendingChat(rows, c)[1..] == PendingChat(rows[k + 1..], c)
  {
    var head, tail := rows[0], rows[1..];
    assert rows == [head] + tail;
    PendingConcat([head], tail, c);
    assert PendingChat([], c) == [];
    var mine := head.conv == c && head.outgoing && head.status.Pending?;
    assert PendingChat([head], c) == if mine then [EntryOf(head)] else [] by { assert [head][1..] == []; }
    hide PendingChat;
    if mine {
      k := 0;
      assert rows[..0] == [] && rows[1..] == tail;
      assert ([EntryOf(head)] + PendingChat(tail, c))[1..] == PendingChat(tail, c);
    } else {
      assert [] + PendingChat(tail, c) == PendingChat(tail, c);
      var j := FirstPending(tail, c);
      k := j + 1;
      assert rows[..k] == [head] + tail[..j] && rows[k + 1..] == tail[j + 1..];
      PendingConcat([head], tail[..j], c);
    }
  }

  /** Marking the first pending row moves every later one up by one. */
  lemma MarkFirst(rows: seq<Row>, c: nat, k: nat)
    requires DistinctIds(rows) && k < |rows| && PendingChat(rows[..k], c) == []
    requires rows[k].conv == c && rows[k].outgoing && rows[k].status.Pending?
    ensures Marked(rows, rows[k].id) == rows[k := rows[k].(status := Sent)] && DistinctIds(Marked(rows, rows[k].id))
    ensures PendingChat(Marked(rows, rows[k].id), c) == PendingChat(rows[k + 1..], c)
    ensures forall i :: k < i < |rows| ==>
      |PendingChat(rows[..i], c)| == 1 + |PendingChat(Marked(rows, rows[k].id)[..i], c)|
    ensures forall i :: 0 <= i <= k ==> PendingChat(rows[..i], c) == []
  {
    var rows', row' := Marked(rows, rows[k].id), rows[k].(status := Sent);
    assert rows' == rows[k := row'];
    assert rows' == rows[..k] + ([row'] + rows[k + 1..]);
    PendingConcat(rows[..k], [row'] + rows[k + 1..], c);
    PendingConcat([row'], rows[k + 1..], c);
    forall i | k < i < |rows|
      ensures |PendingChat(rows[..i], c)| == 1 + |PendingChat(rows'[..i], c)|
    {
      assert rows[..i] == rows[..k] + ([rows[k]] + rows[k + 1..i]);
      assert rows'[..i] == rows[..k] + ([row'] + rows[k + 1..i]);
      PendingConcat(rows[..k], [rows[k]] + rows[k + 1..i], c);
      PendingConcat(rows[..k], [row'] + rows[k + 1..i], c);
      PendingConcat([rows[k]], rows[k + 1..i], c);
      PendingConcat([row'], rows[k + 1..i], c);
    }
    forall i | 0 <= i <= k
      ensures PendingChat(rows[..i], c) == []
    {
      assert rows[..k] == rows[..i] + rows[i..k];
      PendingConcat(rows[..i], rows[i..k], c);
    }
  }

  /** A pass marks sent exactly the pending outgoing rows of its conversation answered before the first failure. */
  lemma {:induction false} PassMarksExactly(rows: seq<Row>, c: nat, outcomes: seq<Outcome>)
    ensures DistinctIds(rows) ==>
      var rows' := PassRows(rows, PendingChat(rows, c), outcomes);
      && |rows'| == |rows|
      && forall i :: 0 <= i < |rows| ==>
           rows'[i] == if Reached(rows, c, outcomes, i) then rows[i].(status := Sent) else rows[i]
    decreases |outcomes|
  {
    var pending := PendingChat(rows, c);
    if DistinctIds(rows) && pending != [] && outcomes != [] && !outcomes[0].Transient? {
      var k := FirstPending(rows, c);
      MarkFirst(rows, c, k);
      var rows1 := Marked(rows, rows[k].id);
      PassMarksExactly(rows1, c, outcomes[1..]);
      assert PassRows(rows, pending, outcomes) == PassRows(rows1, PendingChat(rows1, c), outcomes[1..]);
      hide PassRows, PendingChat;
      forall i | 0 <= i < |rows|
        ensures Reached(rows, c, outcomes, i) <==> i == k || Reached(rows1, c, outcomes[1..], i)
      {
        NotPendingBefore(rows, c, k, i);
      }
    } else if DistinctIds(rows) && pending == [] {
      forall i | 0 <= i < |rows|
        ensures !Reached(rows, c, outcomes, i)
      {
        assert rows == rows[..i] + ([rows[i]] + rows[i + 1..]);
        PendingConcat(rows[..i], [rows[i]] + rows[i + 1..], c);
        PendingConcat([rows[i]], rows[i + 1..], c);
      }
    }
  }

  lemma NotPendingBefore(rows: seq<Row>, c: nat, k: nat, i: nat)
    requires k < |rows| && i < |rows| && PendingChat(rows[..k], c) == []
    ensures i < k ==> !(rows[i].conv == c && rows[i].outgoing && rows[i].status.Pending?)
  {
    if i < k {
      assert rows[..k] == rows[..i] + ([rows[i]] + rows[i + 1..k]);
      PendingConcat(rows[..i], [rows[i]] + rows[i + 1..k], c);
      PendingConcat([rows[i]], rows[i + 1..k], c);
    }
  }

  // All passes and senders, step by step.

  /** A pass under its conversation's lock: the entries still to do, and how the first was answered once it is. */
  datatype Pass = Idle | Sending(todo: seq<Entry>) | Marking(todo: seq<Entry>, accepted: bool)

  /** `log` per conversation, and the ids refused for good. */
  datatype World = World(rows: seq<Row>, passes: map<nat, Pass>, logs: map<nat, seq<Entry>>, refused: set<nat>)

  datatype Step =
    | Insert(row: Row)
    | Begin(c: nat)
    | Deposit(c: nat, outcome: Outcome)
    | Mark(c: nat)
    | End(c: nat)
    | Cut(c: nat)

  function PassOf(w: World, c: nat): Pass { if c in w.passes then w.passes[c] else Idle }

  function LogOf(w: World, c: nat): seq<Entry> { if c in w.logs then w.logs[c] else [] }

  /** New rows have fresh ids and an outgoing row starts pending; a pass may be dropped anywhere (`Cut`). */
  predicate Enabled(w: World, e: Step) {
    match e
    case Insert(row) => (forall r :: r in w.rows ==> r.id != row.id) && row.id !in w.refused
      && (row.outgoing ==> row.status.Pending?)
    case Begin(c) => PassOf(w, c).Idle?
    case Deposit(c, _) => PassOf(w, c).Sending? && PassOf(w, c).todo != []
    case Mark(c) => PassOf(w, c).Marking? && PassOf(w, c).todo != []
    case End(c) => PassOf(w, c) == Sending([])
    case Cut(c) => !PassOf(w, c).Idle?
  }

  function SetPass(w: World, c: nat, p: Pass): World { w.(passes := w.passes[c := p]) }

  function Apply(w: World, e: Step): World
    requires Enabled(w, e)
  {
    match e
    case Insert(row) => w.(rows := w.rows + [row])
    case Begin(c) => SetPass(w, c, Sending(PendingChat(w.rows, c)))
    case Deposit(c, outcome) =>
      var todo := PassOf(w, c).todo;
      (match outcome
       case Accepted => SetPass(w, c, Marking(todo, true)).(logs := w.logs[c := LogOf(w, c) + [todo[0]]])
       case Permanent => SetPass(w, c, Marking(todo, false))
       case Transient => SetPass(w, c, Idle))
    case Mark(c) =>
      var Marking(todo, accepted) := PassOf(w, c);
      SetPass(w.(rows := Marked(w.rows, todo[0].id),
                 refused := if accepted then w.refused else w.refused + {todo[0].id}),
              c, Sending(todo[1..]))
    case End(c) => SetPass(w, c, Idle)
    case Cut(c) => SetPass(w, c, Idle)
  }

  const Empty := World([], map[], map[], {})

  // What the table's views do under insert and mark.

  lemma {:induction false} OutgoingAppend(rows: seq<Row>, row: Row, c: nat)
    ensures Outgoing(rows + [row], c) == Outgoing(rows, c) + (if row.conv == c && row.outgoing then [row] else [])
  {
    if rows != [] {
      assert (rows + [row])[1..] == rows[1..] + [row];
      OutgoingAppend(rows[1..], row, c);
    }
  }

  lemma {:induction false} OutgoingMarked(rows: seq<Row>, id: nat, c: nat)
    ensures Outgoing(Marked(rows, id), c) == Marked(Outgoing(rows, c), id)
  {
    if rows != [] {
      assert Marked(rows, id)[1..] == Marked(rows[1..], id);
      OutgoingMarked(rows[1..], id, c);
    }
  }

  lemma {:induction false} OutgoingFrom(rows: seq<Row>, c: nat)
    ensures forall r :: r in Outgoing(rows, c) ==> r in rows && r.conv == c && r.outgoing
    ensures DistinctIds(rows) ==> DistinctIds(Outgoing(rows, c))
  {
    if rows != [] {
      OutgoingFrom(rows[1..], c);
      if DistinctIds(rows) {
        assert DistinctIds(rows[1..]);
        var o := Outgoing(rows[1..], c);
        assert forall r :: r in rows[1..] ==> r.id != rows[0].id;
        assert forall i :: 0 <= i < |o| ==> o[i] in o;
      }
    }
  }

  function Entries(rows: seq<Row>): seq<Entry> { seq(|rows|, i requires 0 <= i < |rows| => EntryOf(rows[i])) }

  /** The length of the leading non-pending rows. */
  function Lead(o: seq<Row>): nat { if o == [] || o[0].status.Pending? then 0 else 1 + Lead(o[1..]) }

  predicate PrefixSent(o: seq<Row>) { forall i :: Lead(o) <= i < |o| ==> o[i].status.Pending? }

  lemma {:induction false} LeadIs(o: seq<Row>, n: nat)
    requires n <= |o| && (forall i :: 0 <= i < n ==> !o[i].status.Pending?) && (n < |o| ==> o[n].status.Pending?)
    ensures Lead(o) == n
  {
    if n > 0 {
      assert forall i :: 0 <= i < n - 1 ==> o[1..][i] == o[i + 1];
      LeadIs(o[1..], n - 1);
    }
  }

  lemma {:induction false} LeadBounds(o: seq<Row>)
    ensures Lead(o) <= |o| && (forall i :: 0 <= i < Lead(o) ==> !o[i].status.Pending?)
    ensures Lead(o) < |o| ==> o[Lead(o)].status.Pending?
  {
    if o != [] && !o[0].status.Pending? {
      LeadBounds(o[1..]);
      assert forall i :: 0 < i < |o| ==> o[i] == o[1..][i - 1];
    }
  }

  function StillPending(o: seq<Row>): seq<Row> {
    if o == [] then [] else (if o[0].status.Pending? then [o[0]] else []) + StillPending(o[1..])
  }

  lemma {:induction false} PendingView(rows: seq<Row>, c: nat)
    ensures PendingChat(rows, c) == Entries(StillPending(Outgoing(rows, c)))
  {
    if rows != [] {
      var o, o1 := Outgoing(rows, c), Outgoing(rows[1..], c);
      PendingView(rows[1..], c);
      if rows[0].conv == c && rows[0].outgoing {
        assert o == [rows[0]] + o1 && o[1..] == o1;
        assert rows[0].status.Pending? ==>
          Entries([rows[0]] + StillPending(o1)) == [EntryOf(rows[0])] + Entries(StillPending(o1));
      } else {
        assert o == o1;
      }
    }
  }

  lemma {:induction false} StillPendingIsRest(o: seq<Row>)
    requires PrefixSent(o)
    ensures Lead(o) <= |o| && StillPending(o) == o[Lead(o)..]
  {
    if o != [] {
      assert forall i :: 0 < i < |o| ==> o[i] == o[1..][i - 1];
      LeadBounds(o);
      if o[0].status.Pending? {
        assert forall i :: 0 <= i < |o[1..]| ==> o[1..][i].status.Pending?;
        LeadIs(o[1..], 0);
      }
      StillPendingIsRest(o[1..]);
    }
  }

  /** What is read as pending is everything after the prefix. */
  lemma PendingIsRest(rows: seq<Row>, c: nat)
    requires PrefixSent(Outgoing(rows, c))
    ensures Lead(Outgoing(rows, c)) <= |Outgoing(rows, c)|
    ensures PendingChat(rows, c) == Entries(Outgoing(rows, c)[Lead(Outgoing(rows, c))..])
  {
    PendingView(rows, c);
    StillPendingIsRest(Outgoing(rows, c));
  }

  // The invariant, conversation by conversation.

  /** The entries of rows not refused for good. */
  function Kept(o: seq<Row>, refused: set<nat>): seq<Entry> {
    if o == [] then [] else (if o[0].id in refused then [] else [EntryOf(o[0])]) + Kept(o[1..], refused)
  }

  lemma {:induction false} KeptAppend(o: seq<Row>, row: Row, refused: set<nat>)
    ensures Kept(o + [row], refused) == Kept(o, refused) + (if row.id in refused then [] else [EntryOf(row)])
  {
    if o != [] {
      assert (o + [row])[1..] == o[1..] + [row];
      KeptAppend(o[1..], row, refused);
    }
  }

  lemma {:induction false} KeptSame(o: seq<Row>, o': seq<Row>, refused: set<nat>, refused': set<nat>)
    requires |o| == |o'| && forall i :: 0 <= i < |o| ==>
      EntryOf(o[i]) == EntryOf(o'[i]) && (o[i].id in refused <==> o[i].id in refused')
    ensures Kept(o, refused) == Kept(o', refused')
  {
    if o != [] {
      assert EntryOf(o[0]) == EntryOf(o'[0]);
      assert forall i :: 0 <= i < |o[1..]| ==> o[1..][i] == o[i + 1] && o'[1..][i] == o'[i + 1];
      KeptSame(o[1..], o'[1..], refused, refused');
    }
  }

  /** Rows dealt with: the sent prefix, and the row accepted but not yet marked. */
  function Done(o: seq<Row>, p: Pass): nat { Lead(o) + (if p.Marking? && p.accepted then 1 else 0) }

  predicate SentUpTo(o: seq<Row>, n: nat) { n <= |o| && forall i :: 0 <= i < n ==> o[i].status == Sent }

  ghost predicate ConvOk(o: seq<Row>, p: Pass, log: seq<Entry>, refused: set<nat>) {
    var n := Lead(o);
    && PrefixSent(o) && Done(o, p) <= |o|
    && SentUpTo(o, n)
    && log == Kept(o[..Done(o, p)], refused)
    && (forall i :: n <= i < |o| ==> o[i].id !in refused)
    && (!p.Idle? ==> n + |p.todo| <= |o| && p.todo == Entries(o[n..n + |p.todo|]))
    && (p.Marking? ==> p.todo != [])
  }

  lemma InsertOk(o: seq<Row>, row: Row, p: Pass, log: seq<Entry>, refused: set<nat>)
    requires ConvOk(o, p, log, refused) && row.status.Pending? && row.id !in refused
    ensures ConvOk(o + [row], p, log, refused)
  {
    hide Kept, Entries;
    var o', n := o + [row], Lead(o);
    LeadBounds(o);
    assert forall i :: 0 <= i < |o| ==> o'[i] == o[i];
    LeadIs(o', n);
    assert PrefixSent(o') && SentUpTo(o', n);
    hide Lead, PrefixSent, SentUpTo;
    assert o'[..Done(o, p)] == o[..Done(o, p)];
    if !p.Idle? {
      assert o'[n..n + |p.todo|] == o[n..n + |p.todo|];
    }
  }

  lemma BeginOk(rows: seq<Row>, c: nat, log: seq<Entry>, refused: set<nat>)
    requires ConvOk(Outgoing(rows, c), Idle, log, refused)
    ensures ConvOk(Outgoing(rows, c), Sending(PendingChat(rows, c)), log, refused)
  {
    PendingIsRest(rows, c);
  }

  lemma AcceptOk(o: seq<Row>, p: Pass, log: seq<Entry>, refused: set<nat>)
    requires ConvOk(o, p, log, refused) && p.Sending? && p.todo != []
    ensures ConvOk(o, Marking(p.todo, true), log + [p.todo[0]], refused)
  {
    var n := Lead(o);
    assert p.todo[0] == EntryOf(o[n]);
    assert o[..n + 1] == o[..n] + [o[n]];
    KeptAppend(o[..n], o[n], refused);
  }

  lemma RefuseOk(o: seq<Row>, p: Pass, log: seq<Entry>, refused: set<nat>)
    requires ConvOk(o, p, log, refused) && p.Sending? && p.todo != []
    ensures ConvOk(o, Marking(p.todo, false), log, refused)
  {}

  /** A refusal in another conversation. */
  lemma ElsewhereOk(o: seq<Row>, p: Pass, log: seq<Entry>, refused: set<nat>, id: nat)
    requires ConvOk(o, p, log, refused) && forall i :: 0 <= i < |o| ==> o[i].id != id
    ensures ConvOk(o, p, log, refused + {id}) && Marked(o, id) == o
  {
    var d := Done(o, p);
    KeptSame(o[..d], o[..d], refused, refused + {id});
  }

  lemma MarkOk(o: seq<Row>, p: Pass, log: seq<Entry>, refused: set<nat>)
    requires ConvOk(o, p, log, refused) && p.Marking? && DistinctIds(o)
    ensures ConvOk(Marked(o, p.todo[0].id), Sending(p.todo[1..]), log,
                   if p.accepted then refused else refused + {p.todo[0].id})
  {
    var n, o', t := Lead(o), Marked(o, p.todo[0].id), p.todo[1..];
    var refused' := if p.accepted then refused else refused + {o[n].id};
    assert p.todo[0] == EntryOf(o[n]);
    LeadBounds(o);
    assert o'[n].status.Sent? && forall i :: 0 <= i < |o| && i != n ==> o'[i] == o[i];
    LeadIs(o', n + 1);
    assert PrefixSent(o') && SentUpTo(o', n + 1);
    MarkedKept(o, o', n, refused, refused', p.accepted);
    hide Lead, PrefixSent, SentUpTo, Kept, Entries, Marked;
    RestTodo(o, o', n, p.todo);
  }

  lemma RestTodo(o: seq<Row>, o': seq<Row>, n: nat, todo: seq<Entry>)
    requires todo != [] && n + |todo| <= |o| == |o'| && todo == Entries(o[n..n + |todo|])
    requires forall i :: 0 <= i < |o| && i != n ==> o'[i] == o[i]
    ensures todo[1..] == Entries(o'[n + 1..n + |todo|])
  {
    assert forall i :: 0 <= i < |todo| ==> todo[i] == EntryOf(o[n + i]);
  }

  lemma MarkedKept(o: seq<Row>, o': seq<Row>, n: nat, refused: set<nat>, refused': set<nat>, accepted: bool)
    requires n < |o| == |o'| && DistinctIds(o) && forall i :: 0 <= i < |o| ==> EntryOf(o'[i]) == EntryOf(o[i])
    requires refused' == if accepted then refused else refused + {o[n].id}
    ensures Kept(o'[..n + 1], refused') == Kept(o[..if accepted then n + 1 else n], refused)
  {
    assert o'[..n + 1] == o'[..n] + [o'[n]] && o[..n + 1] == o[..n] + [o[n]];
    assert forall i :: 0 <= i < n ==> o'[..n][i] == o'[i] && o[..n][i] == o[i] && EntryOf(o'[i]).id == o[i].id;
    KeptSame(o[..n], o'[..n], refused, refused');
    KeptAppend(o'[..n], o'[n], refused');
    KeptAppend(o[..n], o[n], refused);
    assert EntryOf(o'[n]) == EntryOf(o[n]);
  }

  lemma StopOk(o: seq<Row>, p: Pass, log: seq<Entry>, refused: set<nat>)
    requires ConvOk(o, p, log, refused) && !(p.Marking? && p.accepted)
    ensures ConvOk(o, Idle, log, refused)
  {}

  // Whole runs.

  ghost predicate At(w: World, c: nat) { ConvOk(Outgoing(w.rows, c), PassOf(w, c), LogOf(w, c), w.refused) }

  ghost predicate FlushOk(w: World) { DistinctIds(w.rows) && forall c: nat :: At(w, c) }

  /** No pass is dropped between the relay's acceptance of a message and its mark. */
  predicate Clean(w: World, e: Step) { e.Cut? ==> !(PassOf(w, e.c).Marking? && PassOf(w, e.c).accepted) }

  lemma OwnOk(w: World, e: Step, c: nat)
    requires FlushOk(w) && Enabled(w, e) && Clean(w, e) && !e.Insert? && c == e.c
    ensures At(Apply(w, e), c)
  {
    var o, p, log := Outgoing(w.rows, c), PassOf(w, c), LogOf(w, c);
    assert At(w, c);
    OutgoingFrom(w.rows, c);
    hide ConvOk, DistinctIds, Outgoing, PendingChat;
    match e
    case Begin(_) => BeginOk(w.rows, c, log, w.refused);
    case Deposit(_, outcome) =>
      if outcome.Accepted? {
        AcceptOk(o, p, log, w.refused);
      } else if outcome.Permanent? {
        RefuseOk(o, p, log, w.refused);
      } else {
        StopOk(o, p, log, w.refused);
      }
    case Mark(_) =>
      MarkOk(o, p, log, w.refused);
      OutgoingMarked(w.rows, p.todo[0].id, c);
    case End(_) => StopOk(o, p, log, w.refused);
    case Cut(_) => StopOk(o, p, log, w.refused);
  }

  /** The entry a pass works on is a row of its own conversation. */
  lemma TodoRow(w: World, c: nat) returns (row: Row)
    requires At(w, c) && !PassOf(w, c).Idle? && PassOf(w, c).todo != []
    ensures row in w.rows && row.conv == c && row.id == PassOf(w, c).todo[0].id
  {
    var o := Outgoing(w.rows, c);
    row := o[Lead(o)];
    assert PassOf(w, c).todo[0] == EntryOf(row);
    assert row in o;
    OutgoingFrom(w.rows, c);
  }

  lemma NotElsewhere(rows: seq<Row>, row: Row, c: nat)
    requires DistinctIds(rows) && row in rows && row.conv != c
    ensures forall i :: 0 <= i < |Outgoing(rows, c)| ==> Outgoing(rows, c)[i].id != row.id
  {
    var o := Outgoing(rows, c);
    OutgoingFrom(rows, c);
    assert forall i :: 0 <= i < |o| ==> o[i] in o;
    assert forall r :: r in rows && r != row ==> r.id != row.id;
  }

  lemma OthersOk(w: World, e: Step, c: nat)
    requires FlushOk(w) && Enabled(w, e) && !e.Insert? && c != e.c
    ensures At(Apply(w, e), c)
  {
    hide ConvOk, Outgoing, PendingChat, DistinctIds, Marked;
    assert At(w, c) && At(w, e.c);
    if e.Mark? {
      MarkElsewhere(w, e, c);
    }
  }

  lemma MarkElsewhere(w: World, e: Step, c: nat)
    requires e.Mark? && Enabled(w, e) && c != e.c && DistinctIds(w.rows) && At(w, c) && At(w, e.c)
    ensures At(Apply(w, e), c)
  {
    hide ConvOk, DistinctIds, Outgoing, Marked;
    var o := Outgoing(w.rows, c);
    var row := TodoRow(w, e.c);
    NotElsewhere(w.rows, row, c);
    OutgoingMarked(w.rows, row.id, c);
    ElsewhereOk(o, PassOf(w, c), LogOf(w, c), w.refused, row.id);
  }

  lemma InsertStep(w: World, row: Row, c: nat)
    requires FlushOk(w) && Enabled(w, Insert(row))
    ensures At(Apply(w, Insert(row)), c)
  {
    assert At(w, c);
    OutgoingAppend(w.rows, row, c);
    hide ConvOk, Outgoing;
    if row.conv == c && row.outgoing {
      InsertOk(Outgoing(w.rows, c), row, PassOf(w, c), LogOf(w, c), w.refused);
    } else {
      assert Outgoing(w.rows, c) + [] == Outgoing(w.rows, c);
    }
  }

  lemma FlushStep(w: World, e: Step)
    requires FlushOk(w) && Enabled(w, e) && Clean(w, e)
    ensures FlushOk(Apply(w, e))
  {
    assert DistinctIds(Apply(w, e).rows) by {
      if e.Insert? {
        assert forall i :: 0 <= i < |w.rows| ==> w.rows[i] in w.rows;
      }
    }
    forall c: nat
      ensures At(Apply(w, e), c)
    {
      if e.Insert? {
        InsertStep(w, e.row, c);
      } else if c == e.c {
        OwnOk(w, e, c);
      } else {
        OthersOk(w, e, c);
      }
    }
    hide At, Apply, DistinctIds, Enabled;
  }

  predicate Valid(w: World, es: seq<Step>)
    decreases |es|
  {
    es == [] || (Enabled(w, es[0]) && Valid(Apply(w, es[0]), es[1..]))
  }

  function Exec(w: World, es: seq<Step>): World
    requires Valid(w, es)
    decreases |es|
  {
    if es == [] then w else Exec(Apply(w, es[0]), es[1..])
  }

  predicate AllClean(w: World, es: seq<Step>)
    requires Valid(w, es)
    decreases |es|
  {
    es == [] || (Clean(w, es[0]) && AllClean(Apply(w, es[0]), es[1..]))
  }

  lemma {:induction false} FlushAlways(w: World, es: seq<Step>)
    requires FlushOk(w) && Valid(w, es) && AllClean(w, es)
    ensures FlushOk(Exec(w, es))
    decreases |es|
  {
    hide FlushOk, Apply, Enabled, Clean;
    if es != [] {
      FlushStep(w, es[0]);
      FlushAlways(Apply(w, es[0]), es[1..]);
    }
  }

  lemma {:induction false} KeptDistinct(o: seq<Row>, refused: set<nat>)
    requires DistinctIds(o)
    ensures forall i, j :: 0 <= i < j < |Kept(o, refused)| ==> Kept(o, refused)[i].id != Kept(o, refused)[j].id
    ensures forall e :: e in Kept(o, refused) ==> exists r :: r in o && EntryOf(r) == e
  {
    if o != [] {
      assert DistinctIds(o[1..]);
      KeptDistinct(o[1..], refused);
      var k := Kept(o[1..], refused);
      forall i | 0 <= i < |k|
        ensures k[i].id != o[0].id
      {
        assert k[i] in k;
        var r :| r in o[1..] && EntryOf(r) == k[i];
        var j :| 0 <= j < |o[1..]| && o[1..][j] == r;
        assert o[j + 1] == r;
      }
      forall e | e in Kept(o, refused)
        ensures exists r :: r in o && EntryOf(r) == e
      {
        if e !in k {
          assert EntryOf(o[0]) == e && o[0] in o;
        }
      }
    }
  }

  /**
   Over every clean run from an empty store, for every conversation: its outgoing rows are a prefix marked sent,
   then pending ones, and what the relay accepted is that prefix (with the accepted row being
   marked) without the refused rows, in order, no message twice.
   */
  lemma ExactlyOncePrefix(es: seq<Step>, c: nat)
    requires Valid(Empty, es) && AllClean(Empty, es)
    ensures var w := Exec(Empty, es); var o := Outgoing(w.rows, c);
      var d := Done(o, PassOf(w, c));
      && d <= |o| && LogOf(w, c) == Kept(o[..d], w.refused) && NoRepeats(LogOf(w, c))
      && Lead(o) <= |o| && forall i :: 0 <= i < |o| ==> o[i].status == if i < Lead(o) then Sent else Pending
  {
    assert FlushOk(Empty) by {
      assert forall c: nat :: At(Empty, c);
    }
    FlushAlways(Empty, es);
    var w := Exec(Empty, es);
    assert At(w, c);
    LogHasNoRepeats(w, c);
    hide Exec, Outgoing, Kept;
  }

  /** Between acceptance and mark the message is the last in the log and the first still pending. */
  lemma AcceptedStillPending(rows: seq<Row>, c: nat, p: Pass, log: seq<Entry>, refused: set<nat>)
    requires ConvOk(Outgoing(rows, c), p, log, refused) && p.Marking? && p.accepted
    ensures log != [] && log[|log| - 1] == p.todo[0] && PendingChat(rows, c) != []
      && PendingChat(rows, c)[0] == p.todo[0]
  {
    var o := Outgoing(rows, c);
    var n := Lead(o);
    assert p.todo[0] == EntryOf(o[n]);
    assert o[..n + 1] == o[..n] + [o[n]];
    KeptAppend(o[..n], o[n], refused);
    PendingIsRest(rows, c);
  }

  lemma CutDuplicates(w: World, c: nat)
    requires FlushOk(w) && PassOf(w, c).Marking? && PassOf(w, c).accepted
    ensures var w1 := Apply(w, Cut(c)); var es := [Begin(c), Deposit(c, Accepted)];
      && Valid(w1, es) && AllClean(w1, es) && !NoRepeats(LogOf(Exec(w1, es), c))
  {
    assert At(w, c);
    var log, x := LogOf(w, c), PassOf(w, c).todo[0];
    AcceptedStillPending(w.rows, c, PassOf(w, c), log, w.refused);
    hide Outgoing, PendingChat, ConvOk;
    var w1 := Apply(w, Cut(c));
    var w2 := Apply(w1, Begin(c));
    var w3 := Apply(w2, Deposit(c, Accepted));
    assert LogOf(w3, c) == log + [x];
    assert LogOf(w3, c)[|log| - 1] == x && LogOf(w3, c)[|log|] == x;
    hide Apply, Enabled;
    assert Exec(w3, []) == w3;
    Then(w2, Deposit(c, Accepted), []);
    assert [Deposit(c, Accepted)] + [] == [Deposit(c, Accepted)];
    Then(w1, Begin(c), [Deposit(c, Accepted)]);
    assert [Begin(c)] + [Deposit(c, Accepted)] == [Begin(c), Deposit(c, Accepted)];
  }

  predicate NoRepeats(log: seq<Entry>) { forall i, j :: 0 <= i < j < |log| ==> log[i].id != log[j].id }

  lemma LogHasNoRepeats(w: World, c: nat)
    requires FlushOk(w)
    ensures NoRepeats(LogOf(w, c))
  {
    assert At(w, c);
    var o := Outgoing(w.rows, c);
    OutgoingFrom(w.rows, c);
    assert DistinctIds(o[..Done(o, PassOf(w, c))]);
    KeptDistinct(o[..Done(o, PassOf(w, c))], w.refused);
    hide Outgoing, Kept;
  }

  /**
   Dropping a pass is harmless exactly when it does not come between acceptance and mark: if and only if
   then, no continuation of clean steps ever deposits a message of the conversation twice.
   */
  lemma CutIsHarmlessIff(w: World, c: nat)
    requires FlushOk(w) && Enabled(w, Cut(c))
    ensures Clean(w, Cut(c)) <==>
      forall es | Valid(Apply(w, Cut(c)), es) && AllClean(Apply(w, Cut(c)), es) ::
        NoRepeats(LogOf(Exec(Apply(w, Cut(c)), es), c))
  {
    var w1 := Apply(w, Cut(c));
    if Clean(w, Cut(c)) {
      FlushStep(w, Cut(c));
      forall es | Valid(w1, es) && AllClean(w1, es)
        ensures NoRepeats(LogOf(Exec(w1, es), c))
      {
        FlushAlways(w1, es);
        LogHasNoRepeats(Exec(w1, es), c);
      }
    } else {
      CutDuplicates(w, c);
    }
    hide Apply, FlushOk, NoRepeats;
  }

  // A whole pass, as the method runs it, is a run of these steps.

  function PassSteps(c: nat, pending: seq<Entry>, outcomes: seq<Outcome>): seq<Step>
    decreases |pending|
  {
    if pending == [] then [End(c)]
    else if outcomes == [] || outcomes[0].Transient? then [Deposit(c, Transient)]
    else [Deposit(c, outcomes[0]), Mark(c)] + PassSteps(c, pending[1..], outcomes[1..])
  }

  lemma Then(w: World, e: Step, es: seq<Step>)
    requires Enabled(w, e) && Clean(w, e) && Valid(Apply(w, e), es) && AllClean(Apply(w, e), es)
    ensures Valid(w, [e] + es) && AllClean(w, [e] + es) && Exec(w, [e] + es) == Exec(Apply(w, e), es)
  {
    assert ([e] + es)[1..] == es;
  }

  lemma OneMessage(w: World, c: nat, outcome: Outcome)
    requires PassOf(w, c).Sending? && PassOf(w, c).todo != [] && !outcome.Transient?
    ensures Enabled(w, Deposit(c, outcome)) && Enabled(Apply(w, Deposit(c, outcome)), Mark(c))
    ensures var todo, w2 := PassOf(w, c).todo, Apply(Apply(w, Deposit(c, outcome)), Mark(c));
      && w2.rows == Marked(w.rows, todo[0].id) && PassOf(w2, c) == Sending(todo[1..])
      && LogOf(w2, c) == LogOf(w, c) + (if outcome.Accepted? then [todo[0]] else [])
  {
    hide Marked;
  }

  lemma LastStep(w: World, c: nat)
    requires PassOf(w, c).Sending?
    ensures var es := [if PassOf(w, c).todo == [] then End(c) else Deposit(c, Transient)];
      && Valid(w, es) && AllClean(w, es) && Exec(w, es).rows == w.rows
      && LogOf(Exec(w, es), c) == LogOf(w, c) && PassOf(Exec(w, es), c).Idle?
  {
    var e := if PassOf(w, c).todo == [] then End(c) else Deposit(c, Transient);
    assert Exec(Apply(w, e), []) == Apply(w, e);
    Then(w, e, []);
    assert [e] == [e] + [];
  }

  lemma {:induction false} PassIsRun(w: World, c: nat, outcomes: seq<Outcome>)
    requires PassOf(w, c).Sending?
    ensures var pending := PassOf(w, c).todo; var es := PassSteps(c, pending, outcomes);
      && Valid(w, es) && AllClean(w, es)
      && Exec(w, es).rows == PassRows(w.rows, pending, outcomes)
      && LogOf(Exec(w, es), c) == LogOf(w, c) + PassLog(pending, outcomes)
      && PassOf(Exec(w, es), c).Idle?
    decreases |PassOf(w, c).todo|
  {
    hide Apply, Enabled, Valid, AllClean, Exec, Marked;
    var pending := PassOf(w, c).todo;
    if pending == [] || outcomes == [] || outcomes[0].Transient? {
      LastStep(w, c);
    } else {
      OneMessage(w, c, outcomes[0]);
      var w1 := Apply(w, Deposit(c, outcomes[0]));
      var w2 := Apply(w1, Mark(c));
      PassIsRun(w2, c, outcomes[1..]);
      var rest := PassSteps(c, pending[1..], outcomes[1..]);
      Then(w1, Mark(c), rest);
      Then(w, Deposit(c, outcomes[0]), [Mark(c)] + rest);
      assert PassSteps(c, pending, outcomes) == [Deposit(c, outcomes[0])] + ([Mark(c)] + rest);
    }
  }
}
