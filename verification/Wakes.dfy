/**
 Delivery tasks come to rest: left alone, a connection's task can take only so many steps, so a wake or a drained
 socket never makes it spin. What it may still do is bounded by the wakes waiting and the messages not yet handed.
 */
module Wakes {
  import opened Bytes
  import opened Base64Url
  import opened RelayTable
  import opened RelayWorld
  import opened RelayDelivery

  function IdsAt(t: Table, box: string): set<MsgId> { if box in t then QueueIds(t[box].queue) else {} }

  function Given(s: Subscriber): set<MsgId> { s.sent + set id | id in s.frames }

  function Rank(p: Phase): nat {
    match p
    case Draining => 2
    case Collecting => 1
    case Sending => 1
    case Parked => 0
    case Ended => 0
  }

  /** Two for each wake, two for each message not yet handed, one for each frame to send, and the phase. */
  function Work(w: World, c: Chan): nat
    requires c in w.subs
  {
    var s := w.subs[c];
    2 * s.tokens + 2 * |IdsAt(w.boxes, s.box) - Given(s)| + |s.frames| + Rank(s.phase)
  }

  /** A step the connection takes by itself. */
  predicate OwnStep(s: Step, c: Chan) {
    s == Collect(c) || (s.SendFrame? && s.chan == c) || s == WakeUp(c) || s == Drained(c)
  }

  lemma {:induction false} UnsentCount(h: History, box: string, q: seq<Queued>, sent: set<MsgId>)
    requires QueueOk(h, box, q)
    ensures |Unsent(q, sent)| == |QueueIds(q) - sent|
  {
    hide Belongs, Fated;
    if q == [] {
      assert QueueIds(q) == {};
    } else {
      var rest := q[1..];
      TailQueueOk(h, box, q);
      UnsentCount(h, box, rest, sent);
      IdsOfHead(h, box, q);
      if q[0].id in sent {
        assert QueueIds(q) - sent == QueueIds(rest) - sent;
      } else {
        assert QueueIds(q) - sent == {q[0].id} + (QueueIds(rest) - sent);
      }
    }
  }

  lemma IdsOfHead(h: History, box: string, q: seq<Queued>)
    requires QueueOk(h, box, q) && q != []
    ensures QueueIds(q) == {q[0].id} + QueueIds(q[1..]) && q[0].id !in QueueIds(q[1..])
  {
    assert forall i :: 0 < i < |q| ==> Pos(h, q[0].id) < Pos(h, q[i].id);
    assert forall i :: 0 <= i < |q[1..]| ==> q[1..][i] == q[i + 1];
    assert forall id :: id in QueueIds(q) ==> id == q[0].id || id in QueueIds(q[1..]) by {
      forall i | 0 <= i < |q|
        ensures q[i].id == q[0].id || q[i].id in QueueIds(q[1..])
      {
        if i > 0 {
          assert q[1..][i - 1] == q[i];
        }
      }
    }
  }

  lemma ScanFacts(cfg: Config, w: World, c: Chan)
    requires RelayOk(cfg, w) && Enabled(w, Collect(c))
    ensures w.subs[c].frames == []
    ensures w.subs[c].box in w.boxes ==> QueueOk(w.hist, w.subs[c].box, w.boxes[w.subs[c].box].queue)
  {
    hide BytesOk, HistoryOk, QueueOk, WakeOk, Ascending, NoGap;
    assert SubscriberOk(w.hist, w.boxes, w.subs[c]);
  }

  /** What the scan takes up is exactly what was not handed. */
  lemma ScanTakesAll(h: History, box: string, q: seq<Queued>, s: Subscriber, s': Subscriber)
    requires QueueOk(h, box, q) && s.frames == [] && s'.sent == s.sent && s'.frames == Unsent(q, s.sent)
    ensures |s'.frames| == |QueueIds(q) - Given(s)| && QueueIds(q) - Given(s') == {}
  {
    UnsentCount(h, box, q, s.sent);
    assert Given(s) == s.sent;
    hide QueueOk;
    forall id | id in QueueIds(q)
      ensures id in Given(s')
    {
      var i :| 0 <= i < |q| && q[i].id == id;
      assert id in s.sent || id in s'.frames;
    }
  }

  lemma CollectLowers(cfg: Config, w: World, c: Chan)
    requires RelayOk(cfg, w) && Enabled(w, Collect(c))
    ensures Work(Apply(cfg, w, Collect(c)), c) < Work(w, c)
  {
    hide RelayOk, QueueOk, QueueIds, Given, Unsent, MailboxIdShapeOk;
    ScanFacts(cfg, w, c);
    var s, s' := w.subs[c], Apply(cfg, w, Collect(c)).subs[c];
    if s.box in w.boxes && w.boxes[s.box].notify == Some(c) {
      ScanTakesAll(w.hist, s.box, w.boxes[s.box].queue, s, s');
    } else {
      SameGiven(s, s');
    }
  }

  lemma SameGiven(s: Subscriber, s': Subscriber)
    ensures s'.sent == s.sent && s'.frames == s.frames ==> Given(s') == Given(s)
    ensures s.frames != [] && s'.sent == s.sent + {s.frames[0]} && s'.frames == s.frames[1..] ==> Given(s') == Given(s)
  {
    if s.frames != [] {
      assert s.frames == [s.frames[0]] + s.frames[1..];
    }
  }

  lemma SendLowers(cfg: Config, w: World, c: Chan, ok: bool)
    requires Enabled(w, SendFrame(c, ok))
    ensures Work(Apply(cfg, w, SendFrame(c, ok)), c) < Work(w, c)
  {
    hide IdsAt, Given, MailboxIdShapeOk;
    SameGiven(w.subs[c], Apply(cfg, w, SendFrame(c, ok)).subs[c]);
  }

  /** Every step a task takes by itself lowers what it may still do. */
  lemma OwnStepLowers(cfg: Config, w: World, s: Step, c: Chan)
    requires RelayOk(cfg, w) && Enabled(w, s) && OwnStep(s, c)
    ensures c in w.subs && c in Apply(cfg, w, s).subs && Work(Apply(cfg, w, s), c) < Work(w, c)
  {
    hide RelayOk, IdsAt, Unsent, Given, MailboxIdShapeOk;
    SameGiven(w.subs[c], Apply(cfg, w, s).subs[c]);
    match s
    case Collect(_) => CollectLowers(cfg, w, c);
    case SendFrame(_, ok) => SendLowers(cfg, w, c, ok);
    case WakeUp(_) =>
    case Drained(_) =>
  }

  /** Steps of delivery tasks and closed sockets: no deposit, ack or other request. */
  predicate TaskStep(s: Step) { s.Collect? || s.SendFrame? || s.WakeUp? || s.Drained? || s.Close? }

  lemma OtherTasks(cfg: Config, w: World, s: Step, c: Chan)
    requires Enabled(w, s) && TaskStep(s) && c in w.subs
    ensures c in Apply(cfg, w, s).subs
    ensures !OwnStep(s, c) ==> Work(Apply(cfg, w, s), c) <= Work(w, c)
  {
    hide IdsAt, Unsent, Given, MailboxIdShapeOk;
    SameGiven(w.subs[c], Apply(cfg, w, s).subs[c]);
  }

  ghost predicate Valid(cfg: Config, w: World, es: seq<Step>)
    decreases |es|
  {
    es == [] || (Enabled(w, es[0]) && Valid(cfg, Apply(cfg, w, es[0]), es[1..]))
  }

  function Own(es: seq<Step>, c: Chan): nat {
    if es == [] then 0 else (if OwnStep(es[0], c) then 1 else 0) + Own(es[1..], c)
  }

  /**
   From every reachable world, however the tasks of all connections interleave: as long as no request arrives, one
   connection's task takes no more steps than its work, and then rests.
   */
  lemma {:induction false} TaskRests(cfg: Config, w: World, es: seq<Step>, c: Chan)
    requires RelayOk(cfg, w) && c in w.subs && Valid(cfg, w, es) && forall i :: 0 <= i < |es| ==> TaskStep(es[i])
    ensures Own(es, c) <= Work(w, c)
    decreases |es|
  {
    hide RelayOk, Enabled, Apply, Work, OwnStep;
    if es != [] {
      assert TaskStep(es[0]);
      RelayStepOk(cfg, w, es[0]);
      OtherTasks(cfg, w, es[0], c);
      if OwnStep(es[0], c) {
        OwnStepLowers(cfg, w, es[0], c);
      }
      TaskRests(cfg, Apply(cfg, w, es[0]), es[1..], c);
    }
  }
}
