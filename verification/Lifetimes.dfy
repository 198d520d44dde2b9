/**
 How long the relay keeps things, over every run of RelayWorld, in plain sums of clock readings: a message until
 its deposit is more than the lifetime ago, a mailbox until its last activity is.
 */
module Lifetimes {
  import opened Bytes
  import opened Base64Url
  import opened RelayTable
  import opened RelayWorld
  import opened RelayDelivery

  predicate Holds(w: World, box: string, m: Queued) { box in w.boxes && m in w.boxes[box].queue }

  /**
   One sweep: a mailbox survives if and only if its last activity is at most the lifetime ago, and a queued
   message if and only if its deposit is. What survives is unchanged and in order.
   */
  lemma SweepKeepsExactly(cfg: Config, w: World, now: Instant)
    requires BytesOk(cfg, w)
    ensures var w' := Apply(cfg, w, Sweep(now));
      && (forall box :: box in w.boxes ==> w.boxes[box].lastActivity.Some?)
      && (forall box :: box in w'.boxes <==> box in w.boxes && now <= w.boxes[box].lastActivity.value + cfg.ttl)
      && (forall box, m :: Holds(w', box, m) <==> Holds(w, box, m) && now <= m.depositedAt + cfg.ttl)
      && (forall box :: box in w'.boxes ==>
            exists n :: 0 <= n <= |w.boxes[box].queue| && w'.boxes[box].queue == w.boxes[box].queue[n..])
  {
    hide MailboxIdShapeOk, SweptBytes, PoppedIds, TableBytes;
    var w' := Apply(cfg, w, Sweep(now));
    forall box | box in w.boxes
      ensures w.boxes[box].lastActivity.Some?
      ensures box in w'.boxes <==> now <= w.boxes[box].lastActivity.value + cfg.ttl
      ensures box in w'.boxes ==> w'.boxes[box].queue == w.boxes[box].queue[Popped(cfg, now, w.boxes[box].queue)..]
      ensures forall m :: m in w.boxes[box].queue && now <= m.depositedAt + cfg.ttl ==> Holds(w', box, m)
      ensures forall m :: Holds(w', box, m) ==> m in w.boxes[box].queue && now <= m.depositedAt + cfg.ttl
    {
      assert MailboxOk(cfg, w.clock, w.boxes[box]);
      DroppedIsIdle(cfg, w.clock, now, w.boxes[box]);
      SweepOneMailbox(cfg, w.clock, now, w.boxes[box]);
      hide MailboxOk, KeptBySweep, Popped;
    }
  }

  lemma SweepOneMailbox(cfg: Config, clock: Instant, now: Instant, mb: Mailbox)
    requires MailboxOk(cfg, clock, mb)
    ensures forall m :: m in SweptMailbox(cfg, now, mb).queue <==> m in mb.queue && now <= m.depositedAt + cfg.ttl
    ensures forall m :: m in mb.queue ==> m.depositedAt <= mb.lastActivity.value
  {
    var q, n := mb.queue, Popped(cfg, now, mb.queue);
    SweepPopsExactlyExpired(cfg, now, q);
    hide Popped;
    assert SweptMailbox(cfg, now, mb).queue == q[n..];
    forall m | m in q && now <= m.depositedAt + cfg.ttl
      ensures m in q[n..]
    {
      var i :| 0 <= i < |q| && q[i] == m;
      assert q[n..][i - n] == m;
    }
  }

  // Who expires, and when.

  /** The step sweeps this message away, more than the lifetime after its deposit. */
  ghost predicate ExpiresLate(cfg: Config, w: World, w': World, id: MsgId) {
    exists now, box, m: Queued ::
      Holds(w, box, m) && m.id == id && now > m.depositedAt + cfg.ttl && w' == Apply(cfg, w, Sweep(now))
  }

  lemma ExpiryStep(cfg: Config, w: World, s: Step, id: MsgId)
    requires BytesOk(cfg, w) && Enabled(w, s)
    ensures id in Apply(cfg, w, s).hist.expired ==> id in w.hist.expired || ExpiresLate(cfg, w, Apply(cfg, w, s), id)
  {
    hide MailboxIdShapeOk, Admissible, SweptBytes, SweptTable, TableBytes, Unsent, QueueIds;
    var w' := Apply(cfg, w, s);
    if s.Sweep? && id in w'.hist.expired && id !in w.hist.expired {
      var b, i :| b in w.boxes && 0 <= i < Popped(cfg, s.now, w.boxes[b].queue) && w.boxes[b].queue[i].id == id;
      assert MailboxOk(cfg, w.clock, w.boxes[b]);
      SweepPopsExactlyExpired(cfg, s.now, w.boxes[b].queue);
      assert Holds(w, b, w.boxes[b].queue[i]);
    }
  }

  /** Over every run: a message is recorded as expired only by a sweep more than the lifetime after its deposit. */
  lemma {:induction false} ExpiredOnlyLate(cfg: Config, trace: seq<World>, n: nat, id: MsgId)
    requires Run(cfg, trace) && n < |trace| && id in trace[n].hist.expired
    ensures exists k :: 0 <= k < n && ExpiresLate(cfg, trace[k], trace[k + 1], id)
  {
    hide BytesOk, Enabled, Apply, ExpiresLate;
    BytesAlways(cfg, trace);
    assert n > 0;
    assert Next(cfg, trace[n - 1], trace[n - 1 + 1]);
    var s :| Enabled(trace[n - 1], s) && trace[n] == Apply(cfg, trace[n - 1], s);
    ExpiryStep(cfg, trace[n - 1], s, id);
    if id in trace[n - 1].hist.expired {
      ExpiredOnlyLate(cfg, trace, n - 1, id);
    }
  }

  // Activity keeps a mailbox.

  /** The mailbox exists and was active at `at` or later. */
  predicate Active(w: World, box: string, at: Instant) {
    box in w.boxes && w.boxes[box].lastActivity.Some? && at <= w.boxes[box].lastActivity.value
  }

  /** The steps that count as activity of `box` at `at`: its creation, a deposit, a subscription, an ack. */
  ghost predicate Touches(cfg: Config, w: World, s: Step, box: string, at: Instant)
    requires Enabled(w, s)
  {
    match s
    case Create(id, t) => id == box && t == at && |w.boxes| < cfg.maxMailboxes
    case PutBox(id, t) => id == box && t == at && MailboxIdShapeOk(id) && |w.boxes| < cfg.maxMailboxes && id !in w.boxes
    case Deposit(id, blob, _, bySource, byBox, _, t2) =>
      id == box && t2 == at && DepositStatus(cfg, w.boxes, id, blob, bySource, byBox) == Accepted
    case Register(_, id, t) => id == box && t == at && id in w.boxes
    case Ack(chan, msg, t) =>
      w.subs[chan].box == box && t == at && box in w.boxes && msg in QueueIds(w.boxes[box].queue)
    case _ => false
  }

  lemma TouchActivates(cfg: Config, w: World, s: Step, box: string, at: Instant)
    requires Enabled(w, s) && Touches(cfg, w, s, box, at)
    ensures Active(Apply(cfg, w, s), box, at)
  {
    hide MailboxIdShapeOk, Admissible, Unsent;
  }

  /** Neither deleted nor swept later than the lifetime after `at`. */
  predicate Spares(cfg: Config, s: Step, box: string, at: Instant) {
    s != Remove(box) && (s.Sweep? ==> s.now <= at + cfg.ttl)
  }

  lemma ActiveStep(cfg: Config, w: World, s: Step, box: string, at: Instant)
    requires BytesOk(cfg, w) && Enabled(w, s) && Active(w, box, at) && Spares(cfg, s, box, at)
    ensures Active(Apply(cfg, w, s), box, at)
  {
    hide MailboxIdShapeOk, Admissible, SweptBytes, TableBytes, Unsent, PoppedIds, QueueIds, Popped, QueueBytes;
    assert MailboxOk(cfg, w.clock, w.boxes[box]);
  }

  /** `trace` goes on from its first world by steps that spare the mailbox. */
  ghost predicate SparingRun(cfg: Config, trace: seq<World>, box: string, at: Instant) {
    trace != [] && forall i :: 0 <= i < |trace| - 1 ==> SparingNext(cfg, trace[i], trace[i + 1], box, at)
  }

  ghost predicate SparingNext(cfg: Config, w: World, w': World, box: string, at: Instant) {
    exists s :: Enabled(w, s) && Spares(cfg, s, box, at) && w' == Apply(cfg, w, s)
  }

  lemma {:induction false} ActiveRun(cfg: Config, trace: seq<World>, n: nat, box: string, at: Instant)
    requires SparingRun(cfg, trace, box, at) && n < |trace| && BytesOk(cfg, trace[0]) && Active(trace[0], box, at)
    ensures BytesOk(cfg, trace[n]) && Active(trace[n], box, at)
  {
    hide BytesOk, Enabled, Apply, Active, Spares;
    if n > 0 {
      ActiveRun(cfg, trace, n - 1, box, at);
      assert SparingNext(cfg, trace[n - 1], trace[n - 1 + 1], box, at);
      var s :| Enabled(trace[n - 1], s) && Spares(cfg, s, box, at) && trace[n] == Apply(cfg, trace[n - 1], s);
      BytesStep(cfg, trace[n - 1], s);
      ActiveStep(cfg, trace[n - 1], s, box, at);
    }
  }

  /**
   In every reachable world, after a creation, deposit, subscription or ack at `at`: the mailbox stays through
   every further run that neither deletes it nor sweeps later than the lifetime after `at`.
   */
  lemma ActivityKeepsMailbox(
    cfg: Config, before: seq<World>, s: Step, box: string, at: Instant, trace: seq<World>, n: nat)
    requires Run(cfg, before) && Enabled(before[|before| - 1], s) && Touches(cfg, before[|before| - 1], s, box, at)
    requires SparingRun(cfg, trace, box, at) && trace[0] == Apply(cfg, before[|before| - 1], s) && n < |trace|
    ensures box in trace[n].boxes
  {
    hide BytesOk, Enabled, Apply, Spares, Touches;
    BytesAlways(cfg, before);
    BytesStep(cfg, before[|before| - 1], s);
    TouchActivates(cfg, before[|before| - 1], s, box, at);
    ActiveRun(cfg, trace, n, box, at);
  }
}
