/**
 Deposits through both limiters: the relay of RelayWorld with the tables of Limits in front of it, as the deposit
 and subscribe handlers, deletes and the periodic prune use them. The limiters' answers are no longer inputs, so
 what a mailbox or a source gets accepted in a minute is bounded over every run.
 */
module Admission {
  import opened Bytes
  import opened Base64Url
  import opened RelayTable
  import opened RelayWorld
  import L = Limits

  const CREATE: nat := 0
  const DEPOSIT_BY_SOURCE: nat := 1
  const PUT: nat := 2
  const DEPOSIT_TO_BOX: nat := 0
  const SUBSCRIBE: nat := 1

  datatype Settings = Settings(relay: Config, source: L.Config, box: L.Config)

  predicate SettingsOk(c: Settings) { L.ConfigOk(c.source) && L.ConfigOk(c.box) && c.box.cap.None? }

  datatype Front = Front(w: World, sources: map<nat, L.Window>, boxes: map<string, L.Window>)

  /** A request names its source; `ts` and `tb` are the readings either limiter takes, if it is asked. */
  datatype Event =
    | Deposit(source: nat, id: string, blob: seq<Byte>, msg: MsgId, ts: L.Times, tb: L.Times, t1: Instant, t2: Instant)
    | Subscribe(id: string, tb: L.Times)
    | Other(source: nat, slot: nat, ts: L.Times)
    | Forget(id: string)
    | Prune(at: nat, sourceClock: L.Reading, boxClock: L.Reading)
    | Relay(step: Step)

  predicate Possible(f: Front, e: Event) {
    match e
    case Deposit(_, _, _, msg, _, _, t1, t2) => msg !in f.w.hist.slots && f.w.clock <= t1 <= t2
    case Relay(s) => !s.Deposit? && Enabled(f.w, s)
    case Other(_, slot, _) => slot == CREATE || slot == PUT
    case _ => true
  }

  /** What the source limiter is asked, if anything; only a well-shaped id gets that far. */
  function SourceEvent(f: Front, e: Event): Option<L.Event<nat>> {
    match e
    case Deposit(source, id, _, _, ts, _, _, _) =>
      if MailboxIdShapeOk(id) then Some(L.Request(source, DEPOSIT_BY_SOURCE, ts)) else None
    case Other(source, slot, ts) => Some(L.Request(source, slot, ts))
    case Prune(at, source, _) => Some(L.Prune(at, source))
    case _ => None
  }

  function SourceAdmits(c: Settings, f: Front, e: Event): bool
    requires SettingsOk(c) && e.Deposit?
  {
    MailboxIdShapeOk(e.id) && L.Admit(c.source, f.sources, e.source, DEPOSIT_BY_SOURCE, e.ts).1.Admitted?
  }

  /** What the mailbox limiter is asked: a deposit that passed everything before it, a subscription to a mailbox. */
  function BoxEvent(c: Settings, f: Front, e: Event): Option<L.Event<string>>
    requires SettingsOk(c)
  {
    match e
    case Deposit(_, id, blob, _, _, tb, _, _) =>
      if SourceAdmits(c, f, e) && Admissible(blob) && id in f.w.boxes then Some(L.Request(id, DEPOSIT_TO_BOX, tb))
      else None
    case Subscribe(id, tb) =>
      if MailboxIdShapeOk(id) && id in f.w.boxes then Some(L.Request(id, SUBSCRIBE, tb)) else None
    case Forget(id) => Some(L.Forget(id))
    case Prune(at, _, box) => Some(L.Prune(at, box))
    case _ => None
  }

  function BoxAdmits(c: Settings, f: Front, e: Event): bool
    requires SettingsOk(c) && e.Deposit?
  {
    BoxEvent(c, f, e).Some? && L.Admit(c.box, f.boxes, e.id, DEPOSIT_TO_BOX, e.tb).1.Admitted?
  }

  /** The relay's step of a deposit, with the limiters' answers filled in. */
  function DepositOf(c: Settings, f: Front, e: Event): Step
    requires SettingsOk(c) && e.Deposit?
  {
    Step.Deposit(e.id, e.blob, e.msg, SourceAdmits(c, f, e), BoxAdmits(c, f, e), e.t1, e.t2)
  }

  function Answer(c: Settings, f: Front, e: Event): Status
    requires SettingsOk(c) && e.Deposit?
  {
    DepositStatus(c.relay, f.w.boxes, e.id, e.blob, SourceAdmits(c, f, e), BoxAdmits(c, f, e))
  }

  ghost function After(c: Settings, f: Front, e: Event): Front
    requires SettingsOk(c) && Possible(f, e)
  {
    var sources :=
      match SourceEvent(f, e) case None => f.sources case Some(x) => L.StepWindows(c.source, f.sources, x).0;
    var boxes := match BoxEvent(c, f, e) case None => f.boxes case Some(x) => L.StepWindows(c.box, f.boxes, x).0;
    var w :=
      match e
      case Deposit(_, _, _, _, _, _, _, _) => Apply(c.relay, f.w, DepositOf(c, f, e))
      case Relay(s) => Apply(c.relay, f.w, s)
      case _ => f.w;
    Front(w, sources, boxes)
  }

  ghost predicate Valid(c: Settings, f: Front, es: seq<Event>)
    requires SettingsOk(c)
    decreases |es|
  {
    es == [] || (Possible(f, es[0]) && Valid(c, After(c, f, es[0]), es[1..]))
  }

  ghost function Exec(c: Settings, f: Front, es: seq<Event>): Front
    requires SettingsOk(c) && Valid(c, f, es)
    decreases |es|
  {
    if es == [] then f else Exec(c, After(c, f, es[0]), es[1..])
  }

  // Clocks: each limiter's readings, as Limits asks.

  ghost function BoxClock(c: Settings, f: Front, e: Event, now: L.Clock): L.Clock
    requires SettingsOk(c)
  {
    match BoxEvent(c, f, e) case None => now case Some(x) => L.ClockAfter(x, now)
  }

  ghost predicate BoxTimely(c: Settings, f: Front, es: seq<Event>, now: L.Clock)
    requires SettingsOk(c) && Valid(c, f, es)
    decreases |es|
  {
    es == [] ||
    (&& (BoxEvent(c, f, es[0]).Some? ==> L.TimelyEvent(BoxEvent(c, f, es[0]).value, now, c.box.idle))
     && BoxTimely(c, After(c, f, es[0]), es[1..], BoxClock(c, f, es[0], now)))
  }

  ghost function SourceClock(f: Front, e: Event, now: L.Clock): L.Clock {
    match SourceEvent(f, e) case None => now case Some(x) => L.ClockAfter(x, now)
  }

  ghost predicate SourceTimely(c: Settings, f: Front, es: seq<Event>, now: L.Clock)
    requires SettingsOk(c) && Valid(c, f, es)
    decreases |es|
  {
    es == [] ||
    (&& (SourceEvent(f, es[0]).Some? ==> L.TimelyEvent(SourceEvent(f, es[0]).value, now, c.source.idle))
     && SourceTimely(c, After(c, f, es[0]), es[1..], SourceClock(f, es[0], now)))
  }

  // What is accepted.

  /** Deposits accepted for mailbox `id` in `minute` since it was last forgotten, after `before`. */
  ghost function AcceptedFor(c: Settings, f: Front, es: seq<Event>, id: string, minute: nat, before: nat): nat
    requires SettingsOk(c) && Valid(c, f, es)
    decreases |es|
  {
    if es == [] then before
    else AcceptedFor(c, After(c, f, es[0]), es[1..], id, minute, AcceptedNow(c, f, es[0], id, minute, before))
  }

  function AcceptedNow(c: Settings, f: Front, e: Event, id: string, minute: nat, before: nat): nat
    requires SettingsOk(c)
  {
    if e == Forget(id) then 0
    else if e.Deposit? && e.id == id && e.tb.minute.wall / 60_000_000_000 == minute && Answer(c, f, e) == Accepted
    then before + 1 else before
  }

  /** Deposits accepted from source `k` in `minute`, after `before`. */
  ghost function AcceptedFrom(c: Settings, f: Front, es: seq<Event>, k: nat, minute: nat, before: nat): nat
    requires SettingsOk(c) && Valid(c, f, es)
    decreases |es|
  {
    if es == [] then before
    else AcceptedFrom(c, After(c, f, es[0]), es[1..], k, minute, FromNow(c, f, es[0], k, minute, before))
  }

  function FromNow(c: Settings, f: Front, e: Event, k: nat, minute: nat, before: nat): nat
    requires SettingsOk(c)
  {
    if e.Deposit? && e.source == k && e.ts.minute.wall / 60_000_000_000 == minute && Answer(c, f, e) == Accepted
    then before + 1 else before
  }

  /** An accepted deposit was admitted by both limiters. */
  lemma AcceptedWasAdmitted(c: Settings, f: Front, e: Event)
    requires SettingsOk(c) && e.Deposit? && Answer(c, f, e) == Accepted
    ensures SourceEvent(f, e) == Some(L.Request(e.source, DEPOSIT_BY_SOURCE, e.ts))
    ensures L.Admit(c.source, f.sources, e.source, DEPOSIT_BY_SOURCE, e.ts).1.Admitted?
    ensures BoxEvent(c, f, e) == Some(L.Request(e.id, DEPOSIT_TO_BOX, e.tb))
    ensures L.Admit(c.box, f.boxes, e.id, DEPOSIT_TO_BOX, e.tb).1.Admitted?
  {
    DepositAnswers(c.relay, f.w.boxes, e.id, e.blob, SourceAdmits(c, f, e), BoxAdmits(c, f, e));
    hide L.Admit, Admissible, MailboxIdShapeOk, DepositStatus;
  }

  /** A reference counter is never past its limit. */
  ghost predicate Within<K(!new)>(cfg: L.Config, n: L.Counters<K>)
    requires L.ConfigOk(cfg)
  {
    forall k, s: nat, u: nat :: s < L.SLOTS ==> L.Count(n, k, s, u) <= cfg.limits[s]
  }

  lemma StepWithin<K(!new)>(cfg: L.Config, n: L.Counters<K>, e: L.Event<K>, shed: bool)
    requires L.ConfigOk(cfg) && Within(cfg, n) && (e.Request? ==> e.slot < L.SLOTS)
    ensures Within(cfg, L.StepCounters(cfg, n, e, shed).0)
  {
    var n' := L.StepCounters(cfg, n, e, shed).0;
    forall k, s: nat, u: nat | s < L.SLOTS
      ensures L.Count(n', k, s, u) <= cfg.limits[s]
    {
      assert L.Count(n, k, s, u) <= cfg.limits[s];
    }
  }

  lemma BoxStep(c: Settings, f: Front, e: Event, n: L.Counters<string>, now: L.Clock, id: string, minute: nat, k: nat)
    returns (n': L.Counters<string>)
    requires SettingsOk(c) && Possible(f, e) && L.Agrees(f.boxes, n, now) && Within(c.box, n)
    requires BoxEvent(c, f, e).Some? ==> L.TimelyEvent(BoxEvent(c, f, e).value, now, c.box.idle)
    requires k <= L.Count(n, id, DEPOSIT_TO_BOX, minute)
    ensures L.Agrees(After(c, f, e).boxes, n', BoxClock(c, f, e, now)) && Within(c.box, n')
    ensures AcceptedNow(c, f, e, id, minute, k) <= L.Count(n', id, DEPOSIT_TO_BOX, minute)
  {
    hide L.Agrees, L.StepWindows, L.TimelyEvent, L.ClockAfter, Within, Answer, Apply, MailboxIdShapeOk;
    if e.Deposit? && Answer(c, f, e) == Accepted {
      AcceptedWasAdmitted(c, f, e);
    }
    n' := n;
    if BoxEvent(c, f, e).Some? {
      var x := BoxEvent(c, f, e).value;
      var (m', v) := L.StepWindows(c.box, f.boxes, x);
      L.StepAgrees(c.box, f.boxes, n, x, now);
      StepWithin(c.box, n, x, v.Shed?);
      L.StepCounts(c.box, n, x, v.Shed?, id, DEPOSIT_TO_BOX, minute);
      n' := L.StepCounters(c.box, n, x, v.Shed?).0;
      RequestVerdict(c.box, f.boxes, x);
    }
  }

  lemma RequestVerdict<K>(cfg: L.Config, m: map<K, L.Window>, x: L.Event<K>)
    requires L.ConfigOk(cfg) && (x.Request? ==> x.slot < L.SLOTS)
    ensures x.Request? ==> L.StepWindows(cfg, m, x) == L.Admit(cfg, m, x.key, x.slot, x.t)
  {}

  lemma {:induction false} BoxRun(
    c: Settings, f: Front, es: seq<Event>, n: L.Counters<string>, now: L.Clock, id: string, minute: nat, k: nat)
    requires SettingsOk(c) && Valid(c, f, es) && BoxTimely(c, f, es, now)
    requires L.Agrees(f.boxes, n, now) && Within(c.box, n) && k <= L.Count(n, id, DEPOSIT_TO_BOX, minute)
    ensures AcceptedFor(c, f, es, id, minute, k) <= c.box.limits[DEPOSIT_TO_BOX]
    decreases |es|
  {
    hide After, Possible, L.Agrees, BoxEvent, AcceptedNow, BoxClock;
    if es == [] {
      assert L.Count(n, id, DEPOSIT_TO_BOX, minute) <= c.box.limits[DEPOSIT_TO_BOX];
    } else {
      var n' := BoxStep(c, f, es[0], n, now, id, minute, k);
      hide Within;
      BoxRun(c, After(c, f, es[0]), es[1..], n', BoxClock(c, f, es[0], now), id, minute,
             AcceptedNow(c, f, es[0], id, minute, k));
    }
  }

  /**
   Over every run of the relay and its limiters from empty tables, on qualifying clocks: the deposits accepted
   for a mailbox in one minute, since it was last forgotten, never exceed the mailbox's limit.
   */
  lemma MailboxRateHolds(c: Settings, w: World, es: seq<Event>, start: L.Reading, id: string, minute: nat)
    requires SettingsOk(c) && Valid(c, Front(w, map[], map[]), es)
    requires BoxTimely(c, Front(w, map[], map[]), es, L.StartClock(start))
    ensures AcceptedFor(c, Front(w, map[], map[]), es, id, minute, 0) <= c.box.limits[DEPOSIT_TO_BOX]
  {
    hide AcceptedFor, BoxTimely, Valid;
    var n: L.Counters<string> := map[];
    assert L.Agrees<string>(map[], n, L.StartClock(start));
    BoxRun(c, Front(w, map[], map[]), es, n, L.StartClock(start), id, minute, 0);
  }

  // The same for a source, whose table is bounded and is never told to forget.

  predicate SourcesFit(c: Settings, f: Front) { c.source.cap.Some? ==> |f.sources| <= c.source.cap.value }

  lemma SourceStep(c: Settings, f: Front, e: Event, n: L.Counters<nat>, now: L.Clock, k: nat, minute: nat, got: nat)
    returns (n': L.Counters<nat>)
    requires SettingsOk(c) && Possible(f, e) && L.Agrees(f.sources, n, now) && Within(c.source, n) && SourcesFit(c, f)
    requires SourceEvent(f, e).Some? ==> L.TimelyEvent(SourceEvent(f, e).value, now, c.source.idle)
    requires got <= L.Count(n, k, DEPOSIT_BY_SOURCE, minute)
    ensures L.Agrees(After(c, f, e).sources, n', SourceClock(f, e, now)) && Within(c.source, n')
    ensures SourcesFit(c, After(c, f, e))
    ensures FromNow(c, f, e, k, minute, got) <= L.Count(n', k, DEPOSIT_BY_SOURCE, minute)
  {
    hide L.Agrees, L.StepWindows, L.TimelyEvent, L.ClockAfter, Within, Answer, Apply, MailboxIdShapeOk, BoxEvent;
    if e.Deposit? && Answer(c, f, e) == Accepted {
      AcceptedWasAdmitted(c, f, e);
    }
    n' := n;
    if SourceEvent(f, e).Some? {
      var x := SourceEvent(f, e).value;
      var (m', v) := L.StepWindows(c.source, f.sources, x);
      L.StepAgrees(c.source, f.sources, n, x, now);
      StepWithin(c.source, n, x, v.Shed?);
      L.StepCounts(c.source, n, x, v.Shed?, k, DEPOSIT_BY_SOURCE, minute);
      n' := L.StepCounters(c.source, n, x, v.Shed?).0;
      RequestVerdict(c.source, f.sources, x);
    }
  }

  lemma {:induction false} SourceRun(
    c: Settings, f: Front, es: seq<Event>, n: L.Counters<nat>, now: L.Clock, k: nat, minute: nat, got: nat)
    requires SettingsOk(c) && Valid(c, f, es) && SourceTimely(c, f, es, now) && SourcesFit(c, f)
    requires L.Agrees(f.sources, n, now) && Within(c.source, n) && got <= L.Count(n, k, DEPOSIT_BY_SOURCE, minute)
    ensures AcceptedFrom(c, f, es, k, minute, got) <= c.source.limits[DEPOSIT_BY_SOURCE]
    decreases |es|
  {
    hide After, Possible, L.Agrees, SourceEvent, FromNow, SourceClock, SourcesFit;
    if es == [] {
      assert L.Count(n, k, DEPOSIT_BY_SOURCE, minute) <= c.source.limits[DEPOSIT_BY_SOURCE];
    } else {
      var n' := SourceStep(c, f, es[0], n, now, k, minute, got);
      hide Within;
      SourceRun(c, After(c, f, es[0]), es[1..], n', SourceClock(f, es[0], now), k, minute,
                FromNow(c, f, es[0], k, minute, got));
    }
  }

  /** And the deposits accepted from one source in one minute never exceed the source's limit. */
  lemma SourceRateHolds(c: Settings, w: World, es: seq<Event>, start: L.Reading, k: nat, minute: nat)
    requires SettingsOk(c) && Valid(c, Front(w, map[], map[]), es)
    requires SourceTimely(c, Front(w, map[], map[]), es, L.StartClock(start))
    ensures AcceptedFrom(c, Front(w, map[], map[]), es, k, minute, 0) <= c.source.limits[DEPOSIT_BY_SOURCE]
  {
    hide AcceptedFrom, SourceTimely, Valid;
    var n: L.Counters<nat> := map[];
    assert L.Agrees<nat>(map[], n, L.StartClock(start));
    SourceRun(c, Front(w, map[], map[]), es, n, L.StartClock(start), k, minute, 0);
  }

  /** One request of the limiter against the counter it agrees with. */
  lemma AdmittedByCount<K(!new)>(
    cfg: L.Config, m: map<K, L.Window>, n: L.Counters<K>, key: K, slot: nat, t: L.Times, now: L.Clock)
    requires L.ConfigOk(cfg) && slot < L.SLOTS && L.Agrees(m, n, now)
    requires L.TimelyEvent(L.Request(key, slot, t), now, cfg.idle)
    requires cfg.cap.Some? ==> |m| <= cfg.cap.value
    ensures var v := L.Admit(cfg, m, key, slot, t).1;
      !v.Shed? ==> (v.Admitted? <==> L.Count(n, key, slot, L.MinuteOf(t.minute.wall)) < cfg.limits[slot])
  {
    L.StepAgrees(cfg, m, n, L.Request(key, slot, t), now);
    hide L.Admit, L.Agrees, L.TimelyEvent;
  }

  /**
   A deposit is accepted if and only if its id is well shaped, its envelope admissible, the mailbox there with
   room, the source not shed, and fewer than the limit were admitted in this minute for its source and for its
   mailbox. Then, and only then, it is queued last in that mailbox, stamped `t1`.
   */
  lemma AcceptedExactly(
    c: Settings, f: Front, e: Event, ns: L.Counters<nat>, nb: L.Counters<string>, sourceNow: L.Clock, boxNow: L.Clock)
    requires SettingsOk(c) && Possible(f, e) && e.Deposit? && SourcesFit(c, f)
    requires L.Agrees(f.sources, ns, sourceNow) && L.Agrees(f.boxes, nb, boxNow)
    requires SourceEvent(f, e).Some? ==> L.TimelyEvent(SourceEvent(f, e).value, sourceNow, c.source.idle)
    requires BoxEvent(c, f, e).Some? ==> L.TimelyEvent(BoxEvent(c, f, e).value, boxNow, c.box.idle)
    ensures Answer(c, f, e) == Accepted <==>
      && MailboxIdShapeOk(e.id) && Admissible(e.blob) && e.id in f.w.boxes
      && HasRoom(c.relay, f.w.boxes[e.id], |e.blob|)
      && !L.Admit(c.source, f.sources, e.source, 1, e.ts).1.Shed?
      && L.Count(ns, e.source, 1, e.ts.minute.wall / 60_000_000_000) < c.source.limits[1]
      && L.Count(nb, e.id, 0, e.tb.minute.wall / 60_000_000_000) < c.box.limits[0]
    ensures var w' := After(c, f, e).w;
      if Answer(c, f, e) == Accepted then
        && e.id in f.w.boxes && w'.boxes.Keys == f.w.boxes.Keys
        && w'.boxes[e.id].queue == f.w.boxes[e.id].queue + [Queued(e.msg, e.blob, e.t1)]
        && (forall b :: b in f.w.boxes && b != e.id ==> w'.boxes[b] == f.w.boxes[b])
      else w' == f.w
  {
    hide MailboxIdShapeOk, Admissible, L.Admit, L.Agrees, L.TimelyEvent, L.StepWindows;
    if MailboxIdShapeOk(e.id) {
      AdmittedByCount(c.source, f.sources, ns, e.source, 1, e.ts, sourceNow);
      if BoxEvent(c, f, e).Some? {
        AdmittedByCount(c.box, f.boxes, nb, e.id, 0, e.tb, boxNow);
        NeverShed(c.box, f.boxes, e.id, 0, e.tb);
      }
    }
  }

  lemma NeverShed<K>(cfg: L.Config, m: map<K, L.Window>, key: K, slot: nat, t: L.Times)
    requires L.ConfigOk(cfg) && slot < L.SLOTS && cfg.cap.None?
    ensures !L.Admit(cfg, m, key, slot, t).1.Shed?
  {}
}
