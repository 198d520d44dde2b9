/**
 The relay's rate limiters. Both keep a map from key to a one-minute window of counters that is pruned by
 idleness; the source limiter also sheds requests at a full table. They refine a counter per
 (key, slot, minute) that forgets nothing. Minutes are read off the system clock and idleness off the
 monotonic one; readings are inputs, in nanoseconds.
 */
module Limits {
  import opened Bytes
  import opened Sums

  const MINUTE: nat := 60_000_000_000
  const SLOTS: nat := 3

  function MinuteOf(t: nat): nat { t / MINUTE }

  /** One counter per request class. */
  type Counts = s: seq<nat> | |s| == SLOTS witness [0, 0, 0]

  datatype Window = Window(minute: nat, counts: Counts, touched: nat)

  /** A moment on both clocks. */
  datatype Reading = Reading(mono: nat, wall: nat)

  /** The clocks as one request reads them: for pruning, for a new window, for admission, for `touched`. */
  datatype Times = Times(retain: Reading, insert: Reading, minute: Reading, touch: Reading)

  /** `cap` bounds the number of keys (sources only); one limit per slot. */
  datatype Config = Config(cap: Option<nat>, idle: nat, limits: seq<nat>)

  predicate ConfigOk(cfg: Config) { |cfg.limits| == SLOTS }

  datatype Verdict = Admitted | Refused | Shed

  function WindowAdmit(w: Window, slot: nat, limit: nat, t: Times): (r: (Window, bool))
    requires slot < SLOTS
    ensures r.0.minute == MinuteOf(t.minute.wall) && r.0.touched == t.touch.mono
  {
    var minute := MinuteOf(t.minute.wall);
    var w1 := if w.minute != minute then Window(minute, [0, 0, 0], t.touch.mono) else w.(touched := t.touch.mono);
    if w1.counts[slot] >= limit then (w1, false)
    else (w1.(counts := w1.counts[slot := w1.counts[slot] + 1]), true)
  }

  function Since(now: nat, touched: nat): nat { if now >= touched then now - touched else 0 }

  function Retained<K>(m: map<K, Window>, now: nat, idle: nat): map<K, Window> {
    map k | k in m && Since(now, m[k].touched) < idle :: m[k]
  }

  function Enter<K>(m: map<K, Window>, key: K, slot: nat, limit: nat, t: Times): (map<K, Window>, Verdict)
    requires slot < SLOTS
  {
    var w := if key in m then m[key] else Window(MinuteOf(t.insert.wall), [0, 0, 0], t.insert.mono);
    var (w', ok) := WindowAdmit(w, slot, limit, t);
    (m[key := w'], if ok then Admitted else Refused)
  }

  function Admit<K>(cfg: Config, m: map<K, Window>, key: K, slot: nat, t: Times): (map<K, Window>, Verdict)
    requires ConfigOk(cfg) && slot < SLOTS
  {
    var limit := cfg.limits[slot];
    if limit == 0 then (m, Refused)
    else if cfg.cap.Some? && |m| >= cfg.cap.value && key !in m then
      var m1 := Retained(m, t.retain.mono, cfg.idle);
      if |m1| >= cfg.cap.value then (m1, Shed) else Enter(m1, key, slot, limit, t)
    else Enter(m, key, slot, limit, t)
  }

  /** Per-source limiter; keys are the hashed addresses. */
  class SourceLimiter {
    const cfg: Config
    var windows: map<nat, Window>

    ghost predicate Valid()
      reads this
    {
      ConfigOk(cfg) && cfg.cap.Some? && |windows| <= cfg.cap.value
    }

    constructor (createLimit: nat, depositLimit: nat, putLimit: nat, idle: nat, maxEntries: nat)
      ensures Valid() && windows == map[]
      ensures cfg == Config(Some(maxEntries), idle, [createLimit, depositLimit, putLimit])
    {
      cfg := Config(Some(maxEntries), idle, [createLimit, depositLimit, putLimit]);
      windows := map[];
    }

    method AdmitRequest(key: nat, slot: nat, t: Times) returns (ok: bool)
      requires Valid() && slot < SLOTS
      modifies `windows
      ensures Valid()
      ensures windows == Admit(cfg, old(windows), key, slot, t).0
      ensures ok <==> Admit(cfg, old(windows), key, slot, t).1.Admitted?
    {
      AdmitKeepsBound(cfg, windows, key, slot, t);
      var limit := cfg.limits[slot];
      if limit == 0 {
        return false;
      }
      if |windows| >= cfg.cap.value && key !in windows {
        windows := Retained(windows, t.retain.mono, cfg.idle);
        if |windows| >= cfg.cap.value {
          return false;
        }
      }
      var w := if key in windows then windows[key] else Window(MinuteOf(t.insert.wall), [0, 0, 0], t.insert.mono);
      var (w', admitted) := WindowAdmit(w, slot, limit, t);
      windows := windows[key := w'];
      ok := admitted;
    }

    method Prune(now: nat)
      requires Valid()
      modifies `windows
      ensures Valid() && windows == Retained(old(windows), now, cfg.idle)
    {
      RetainedSize(windows, now, cfg.idle);
      windows := Retained(windows, now, cfg.idle);
    }
  }

  /** Per-mailbox limiter; no bound on keys, and a deleted mailbox is forgotten. */
  class BoxLimiter {
    const cfg: Config
    var windows: map<string, Window>

    ghost predicate Valid()
      reads this
    {
      ConfigOk(cfg) && cfg.cap.None?
    }

    constructor (depositLimit: nat, wsLimit: nat, idle: nat)
      ensures Valid() && windows == map[] && cfg == Config(None, idle, [depositLimit, wsLimit, 0])
    {
      cfg := Config(None, idle, [depositLimit, wsLimit, 0]);
      windows := map[];
    }

    method AdmitRequest(mailbox: string, slot: nat, t: Times) returns (ok: bool)
      requires Valid() && slot < SLOTS
      modifies `windows
      ensures Valid()
      ensures windows == Admit(cfg, old(windows), mailbox, slot, t).0
      ensures ok <==> Admit(cfg, old(windows), mailbox, slot, t).1.Admitted?
    {
      var limit := cfg.limits[slot];
      if limit == 0 {
        return false;
      }
      var w :=
        if mailbox in windows then windows[mailbox] else Window(MinuteOf(t.insert.wall), [0, 0, 0], t.insert.mono);
      var (w', admitted) := WindowAdmit(w, slot, limit, t);
      windows := windows[mailbox := w'];
      ok := admitted;
    }

    method Prune(now: nat)
      requires Valid()
      modifies `windows
      ensures Valid() && windows == Retained(old(windows), now, cfg.idle)
    {
      windows := Retained(windows, now, cfg.idle);
    }

    method Forget(mailbox: string)
      requires Valid()
      modifies `windows
      ensures Valid() && windows == old(windows) - {mailbox}
    {
      windows := windows - {mailbox};
    }
  }

  // The size of the source table.

  lemma RetainedSize<K>(m: map<K, Window>, now: nat, idle: nat)
    ensures |Retained(m, now, idle)| <= |m|
    ensures |Retained(m, now, idle)| == |m| ==> forall k :: k in m ==> Since(now, m[k].touched) < idle
  {
    var kept := Retained(m, now, idle);
    assert kept.Keys <= m.Keys;
    SubsetCount(kept.Keys, m.Keys);
    if |kept| == |m| {
      assert kept.Keys == m.Keys;
    }
  }

  lemma AdmitKeepsBound<K(!new)>(cfg: Config, m: map<K, Window>, key: K, slot: nat, t: Times)
    requires ConfigOk(cfg) && slot < SLOTS
    requires cfg.cap.Some? ==> |m| <= cfg.cap.value
    ensures var (m', v) := Admit(cfg, m, key, slot, t);
      cfg.cap.Some? ==> |m'| <= cfg.cap.value
  {
    RetainedSize(m, t.retain.mono, cfg.idle);
    hide Retained;
    assert key in m ==> m.Keys + {key} == m.Keys;
  }

  /** A request is shed only while the table is full of keys all active within the idle time. */
  lemma ShedOnlyWhenBusy<K(!new)>(cfg: Config, m: map<K, Window>, key: K, slot: nat, t: Times)
    requires ConfigOk(cfg) && slot < SLOTS
    requires cfg.cap.Some? && |m| <= cfg.cap.value
    ensures Admit(cfg, m, key, slot, t).1.Shed? ==>
      key !in m && |m| == cfg.cap.value && forall k :: k in m ==> Since(t.retain.mono, m[k].touched) < cfg.idle
  {
    RetainedSize(m, t.retain.mono, cfg.idle);
    hide Retained;
  }

  // The reference: one counter per key, slot and minute.

  type Counters<!K(==)> = map<(K, nat, nat), nat>

  function Count<K(==)>(c: Counters<K>, k: K, slot: nat, minute: nat): nat {
    if (k, slot, minute) in c then c[(k, slot, minute)] else 0
  }

  function RefAdmit<K(==)>(cfg: Config, c: Counters<K>, k: K, slot: nat, minute: nat): (Counters<K>, Verdict)
    requires ConfigOk(cfg) && slot < SLOTS
  {
    var n := Count(c, k, slot, minute);
    if n >= cfg.limits[slot] then (c, Refused) else (c[(k, slot, minute) := n + 1], Admitted)
  }

  function RefForget<K(==)>(c: Counters<K>, k: K): Counters<K> { map x | x in c && x.0 != k :: c[x] }

  // The two clocks over a run.

  /** The minute the system clock is in, since when on the monotonic clock, and the minutes it has left. */
  datatype Clock = Clock(left: set<nat>, minute: nat, since: nat, mono: nat)

  function StartClock(r: Reading): Clock { Clock({}, MinuteOf(r.wall), r.mono, r.mono) }

  function Tick(k: Clock, r: Reading): Clock {
    if MinuteOf(r.wall) == k.minute then k.(mono := r.mono)
    else Clock(k.left + {k.minute}, MinuteOf(r.wall), r.mono, r.mono)
  }

  /** No minute is entered again once left, and none lasts as long as the idle time on the monotonic clock. */
  predicate Ticks(k: Clock, r: Reading, idle: nat) {
    && k.mono <= r.mono && MinuteOf(r.wall) !in k.left
    && Tick(k, r).mono < Tick(k, r).since + idle
  }

  function TickMinute(k: Clock, t: Times): Clock { Tick(Tick(Tick(k, t.retain), t.insert), t.minute) }

  predicate InOrder(t: Times, k: Clock, idle: nat) {
    && Ticks(k, t.retain, idle) && Ticks(Tick(k, t.retain), t.insert, idle)
    && Ticks(Tick(Tick(k, t.retain), t.insert), t.minute, idle) && Ticks(TickMinute(k, t), t.touch, idle)
  }

  /** The reference counters and the windows agree on every minute not left, and windows of this minute are young. */
  ghost predicate Agrees<K(!new)>(m: map<K, Window>, c: Counters<K>, now: Clock) {
    && now.minute !in now.left && now.since <= now.mono
    && (forall k :: k in m ==>
          && m[k].touched <= now.mono
          && (m[k].minute in now.left || (m[k].minute == now.minute && now.since <= m[k].touched)))
    && (forall k, s: nat, u: nat :: s < SLOTS && u !in now.left ==> Count(c, k, s, u) == Tracked(m, k, s, u))
  }

  function Tracked<K>(m: map<K, Window>, k: K, slot: nat, minute: nat): nat {
    if k in m && m[k].minute == minute && slot < SLOTS then m[k].counts[slot] else 0
  }

  lemma AgreesLater<K(!new)>(m: map<K, Window>, c: Counters<K>, now: Clock, r: Reading, idle: nat)
    requires Agrees(m, c, now) && Ticks(now, r, idle)
    ensures Agrees(m, c, Tick(now, r))
  {
    hide MinuteOf;
  }

  /** Pruning forgets only windows whose minute is over, even when its clock reading is an old one. */
  lemma PruneAgrees<K(!new)>(m: map<K, Window>, c: Counters<K>, at: nat, now: Clock, idle: nat)
    requires Agrees(m, c, now) && at <= now.mono < now.since + idle
    ensures Agrees(Retained(m, at, idle), c, now)
  {
    var m' := Retained(m, at, idle);
    forall k, s: nat, u: nat | s < SLOTS && u !in now.left
      ensures Count(c, k, s, u) == Tracked(m', k, s, u)
    {
      assert Count(c, k, s, u) == Tracked(m, k, s, u);
    }
  }

  lemma EnterAgrees<K(!new)>(cfg: Config, m: map<K, Window>, c: Counters<K>, key: K, slot: nat, t: Times, now: Clock)
    requires ConfigOk(cfg) && slot < SLOTS && Agrees(m, c, now)
    requires MinuteOf(t.minute.wall) == now.minute && Ticks(now, t.touch, cfg.idle)
    ensures var (m', v) := Enter(m, key, slot, cfg.limits[slot], t);
      var (c', v') := RefAdmit(cfg, c, key, slot, now.minute);
      v == v' && Agrees(m', c', Tick(now, t.touch))
  {
    hide MinuteOf;
    assert Count(c, key, slot, now.minute) == Tracked(m, key, slot, now.minute);
    var (m', v) := Enter(m, key, slot, cfg.limits[slot], t);
    var (c', v') := RefAdmit(cfg, c, key, slot, now.minute);
    forall k, s: nat, u: nat | s < SLOTS && u !in Tick(now, t.touch).left
      ensures Count(c', k, s, u) == Tracked(m', k, s, u)
    {
      assert Count(c, k, s, u) == Tracked(m, k, s, u);
    }
  }

  // Whole runs.

  /** A request; a prune whose argument was read no later than the lock was taken; a forgotten mailbox. */
  datatype Event<K> = Request(key: K, slot: nat, t: Times) | Prune(at: nat, clock: Reading) | Forget(gone: K)

  function ClockAfter<K>(e: Event<K>, now: Clock): Clock {
    match e
    case Request(_, _, t) => Tick(TickMinute(now, t), t.touch)
    case Prune(_, clock) => Tick(now, clock)
    case Forget(_) => now
  }

  predicate TimelyEvent<K>(e: Event<K>, now: Clock, idle: nat) {
    match e
    case Request(_, slot, t) => slot < SLOTS && InOrder(t, now, idle)
    case Prune(at, clock) => at <= clock.mono && Ticks(now, clock, idle)
    case Forget(_) => true
  }

  /** Over the readings of successive events, no minute is entered twice or lasts the idle time. */
  predicate Timely<K>(es: seq<Event<K>>, now: Clock, idle: nat)
    decreases |es|
  {
    es == [] || (TimelyEvent(es[0], now, idle) && Timely(es[1..], ClockAfter(es[0], now), idle))
  }

  function StepWindows<K>(cfg: Config, m: map<K, Window>, e: Event<K>): (map<K, Window>, Verdict)
    requires ConfigOk(cfg) && (e.Request? ==> e.slot < SLOTS)
  {
    match e
    case Request(key, slot, t) => Admit(cfg, m, key, slot, t)
    case Prune(at, _) => (Retained(m, at, cfg.idle), Refused)
    case Forget(k) => (m - {k}, Refused)
  }

  /** The reference never prunes; a request the limiter shed does not reach it. */
  function StepCounters<K(==)>(cfg: Config, c: Counters<K>, e: Event<K>, shed: bool): (Counters<K>, Verdict)
    requires ConfigOk(cfg) && (e.Request? ==> e.slot < SLOTS)
  {
    match e
    case Request(key, slot, t) => if shed then (c, Shed) else RefAdmit(cfg, c, key, slot, MinuteOf(t.minute.wall))
    case Prune(_, _) => (c, Refused)
    case Forget(k) => (RefForget(c, k), Refused)
  }

  lemma StepAgrees<K(!new)>(cfg: Config, m: map<K, Window>, c: Counters<K>, e: Event<K>, now: Clock)
    requires ConfigOk(cfg) && Agrees(m, c, now) && TimelyEvent(e, now, cfg.idle)
    requires cfg.cap.Some? ==> |m| <= cfg.cap.value
    ensures var (m', v) := StepWindows(cfg, m, e);
      var (c', v') := StepCounters(cfg, c, e, v.Shed?);
      && v == v' && Agrees(m', c', ClockAfter(e, now))
      && (cfg.cap.Some? ==> |m'| <= cfg.cap.value)
  {
    hide Agrees, Retained, MinuteOf;
    match e
    case Request(key, slot, t) =>
      var k1 := Tick(now, t.retain);
      AdmitKeepsBound(cfg, m, key, slot, t);
      AgreesLater(m, c, now, t.retain, cfg.idle);
      if cfg.cap.Some? && |m| >= cfg.cap.value && key !in m {
        PruneAgrees(m, c, t.retain.mono, k1, cfg.idle);
        RequestAgrees(cfg, Retained(m, t.retain.mono, cfg.idle), c, key, slot, t, k1);
      }
      RequestAgrees(cfg, m, c, key, slot, t, k1);
    case Prune(at, clock) =>
      AgreesLater(m, c, now, clock, cfg.idle);
      PruneAgrees(m, c, at, Tick(now, clock), cfg.idle);
      RetainedSize(m, at, cfg.idle);
    case Forget(k) =>
      ForgetAgrees(m, c, k, now);
      SubsetCount((m - {k}).Keys, m.Keys);
  }

  /** The rest of a request, after its pruning. */
  lemma RequestAgrees<K(!new)>(cfg: Config, m: map<K, Window>, c: Counters<K>, key: K, slot: nat, t: Times, k1: Clock)
    requires ConfigOk(cfg) && slot < SLOTS && Agrees(m, c, k1)
    requires Ticks(k1, t.insert, cfg.idle) && Ticks(Tick(k1, t.insert), t.minute, cfg.idle)
    requires Ticks(Tick(Tick(k1, t.insert), t.minute), t.touch, cfg.idle)
    ensures var k3 := Tick(Tick(k1, t.insert), t.minute);
      var (m', v) := Enter(m, key, slot, cfg.limits[slot], t);
      var (c', v') := RefAdmit(cfg, c, key, slot, MinuteOf(t.minute.wall));
      && Agrees(m, c, Tick(k3, t.touch)) && v == v' && Agrees(m', c', Tick(k3, t.touch))
  {
    hide Agrees, MinuteOf, Enter, RefAdmit;
    var k2 := Tick(k1, t.insert);
    AgreesLater(m, c, k1, t.insert, cfg.idle);
    AgreesLater(m, c, k2, t.minute, cfg.idle);
    AgreesLater(m, c, Tick(k2, t.minute), t.touch, cfg.idle);
    EnterAgrees(cfg, m, c, key, slot, t, Tick(k2, t.minute));
  }

  lemma ForgetAgrees<K(!new)>(m: map<K, Window>, c: Counters<K>, k: K, now: Clock)
    requires Agrees(m, c, now)
    ensures Agrees(m - {k}, RefForget(c, k), now)
  {
    forall j, s: nat, u: nat | s < SLOTS && u !in now.left
      ensures Count(RefForget(c, k), j, s, u) == Tracked(m - {k}, j, s, u)
    {
      assert Count(c, j, s, u) == Tracked(m, j, s, u);
    }
  }

  predicate SlotsOk<K>(es: seq<Event<K>>) { forall i :: 0 <= i < |es| && es[i].Request? ==> es[i].slot < SLOTS }

  /** The verdicts of a whole run, and of the reference fed with all but the shed requests. */
  function RunWindows<K>(cfg: Config, m: map<K, Window>, es: seq<Event<K>>): (map<K, Window>, seq<Verdict>)
    requires ConfigOk(cfg) && SlotsOk(es)
    decreases |es|
  {
    if es == [] then (m, [])
    else
      var (m1, v) := StepWindows(cfg, m, es[0]);
      var (m', vs) := RunWindows(cfg, m1, es[1..]);
      (m', [v] + vs)
  }

  function RunCounters<K(==)>(
    cfg: Config, c: Counters<K>, es: seq<Event<K>>, sheds: seq<bool>): (Counters<K>, seq<Verdict>)
    requires ConfigOk(cfg) && |sheds| == |es| && SlotsOk(es)
    decreases |es|
  {
    if es == [] then (c, [])
    else
      var (c1, v) := StepCounters(cfg, c, es[0], sheds[0]);
      var (c', vs) := RunCounters(cfg, c1, es[1..], sheds[1..]);
      (c', [v] + vs)
  }

  function Sheds(vs: seq<Verdict>): seq<bool> { seq(|vs|, i requires 0 <= i < |vs| => vs[i].Shed?) }

  /**
   Refinement: over every run on whose clocks no minute is entered twice or lasts the idle time, the pruned
   map gives every request the verdict of the counter that never prunes, except those it sheds; and it
   never holds more keys than its bound.
   */
  lemma {:induction false} LimiterRefines<K(!new)>(
    cfg: Config, m: map<K, Window>, c: Counters<K>, es: seq<Event<K>>, now: Clock)
    requires ConfigOk(cfg) && Agrees(m, c, now) && Timely(es, now, cfg.idle)
    requires cfg.cap.Some? ==> |m| <= cfg.cap.value
    requires SlotsOk(es)
    ensures var (m', vs) := RunWindows(cfg, m, es);
      && |vs| == |es| && RunCounters(cfg, c, es, Sheds(vs)).1 == vs
      && (cfg.cap.Some? ==> |m'| <= cfg.cap.value)
    decreases |es|
  {
    hide Agrees, StepWindows, StepCounters, TimelyEvent, ClockAfter;
    if es != [] {
      StepAgrees(cfg, m, c, es[0], now);
      var (m1, v) := StepWindows(cfg, m, es[0]);
      var (c1, v') := StepCounters(cfg, c, es[0], v.Shed?);
      LimiterRefines(cfg, m1, c1, es[1..], ClockAfter(es[0], now));
      var (m', vs) := RunWindows(cfg, m1, es[1..]);
      assert Sheds([v] + vs)[1..] == Sheds(vs);
    }
  }

  // What the refinement means for a caller.

  predicate Hits<K(==)>(e: Event<K>, v: Verdict, k: K, slot: nat, minute: nat) {
    e.Request? && v.Admitted? && e.key == k && e.slot == slot && MinuteOf(e.t.minute.wall) == minute
  }

  /** How many requests of this key, slot and minute were admitted since the key was last forgotten, after `before`. */
  function AdmittedCount<K(==)>(es: seq<Event<K>>, vs: seq<Verdict>, k: K, slot: nat, minute: nat, before: nat): nat
    requires |es| == |vs|
    decreases |es|
  {
    if es == [] then before
    else AdmittedCount(es[1..], vs[1..], k, slot, minute, CountAfter(es[0], vs[0], k, slot, minute, before))
  }

  function CountAfter<K(==)>(e: Event<K>, v: Verdict, k: K, slot: nat, minute: nat, before: nat): nat {
    if e == Forget(k) then 0 else if Hits(e, v, k, slot, minute) then before + 1 else before
  }

  lemma StepCounts<K>(cfg: Config, c: Counters<K>, e: Event<K>, shed: bool, k: K, slot: nat, minute: nat)
    requires ConfigOk(cfg) && (e.Request? ==> e.slot < SLOTS)
    ensures var (c', v) := StepCounters(cfg, c, e, shed);
      Count(c', k, slot, minute) == CountAfter(e, v, k, slot, minute, Count(c, k, slot, minute))
  {}

  lemma {:induction false} RefVerdict<K>(cfg: Config, c: Counters<K>, es: seq<Event<K>>, sheds: seq<bool>, i: nat)
    requires ConfigOk(cfg) && |sheds| == |es| && SlotsOk(es)
    requires i < |es| && es[i].Request? && !sheds[i]
    ensures var vs, e, u := RunCounters(cfg, c, es, sheds).1, es[i], MinuteOf(es[i].t.minute.wall);
      && |vs| == |es|
      && (vs[i].Admitted? <==>
          AdmittedCount(es[..i], vs[..i], e.key, e.slot, u, Count(c, e.key, e.slot, u)) < cfg.limits[e.slot])
    decreases |es|
  {
    var e, u := es[i], MinuteOf(es[i].t.minute.wall);
    var (c1, v) := StepCounters(cfg, c, es[0], sheds[0]);
    RunCountersLength(cfg, c1, es[1..], sheds[1..]);
    var vs := RunCounters(cfg, c1, es[1..], sheds[1..]).1;
    if i > 0 {
      StepCounts(cfg, c, es[0], sheds[0], e.key, e.slot, u);
      assert es[i] == es[1..][i - 1] && sheds[i] == sheds[1..][i - 1];
      RefVerdict(cfg, c1, es[1..], sheds[1..], i - 1);
      assert es[..i][1..] == es[1..][..i - 1] && ([v] + vs)[..i][1..] == vs[..i - 1];
      hide StepCounters;
    }
  }

  lemma RunCountersLength<K>(cfg: Config, c: Counters<K>, es: seq<Event<K>>, sheds: seq<bool>)
    requires ConfigOk(cfg) && |sheds| == |es| && SlotsOk(es)
    ensures |RunCounters(cfg, c, es, sheds).1| == |es|
    decreases |es|
  {}

  /**
   Started empty, a request that is not shed is admitted exactly when fewer than the limit of its own
   key, slot and minute were admitted before it since its key was last forgotten; no other key, slot or
   minute, and no pruning, matters.
   */
  lemma AdmittedExactly<K(!new)>(cfg: Config, es: seq<Event<K>>, i: nat, start: Reading)
    requires ConfigOk(cfg) && Timely(es, StartClock(start), cfg.idle) && SlotsOk(es)
    requires i < |es| && es[i].Request?
    ensures var vs, e := RunWindows(cfg, map[], es).1, es[i];
      && |vs| == |es|
      && (!vs[i].Shed? ==> (vs[i].Admitted? <==>
          AdmittedCount(es[..i], vs[..i], e.key, e.slot, MinuteOf(e.t.minute.wall), 0) < cfg.limits[e.slot]))
  {
    var m: map<K, Window> := map[];
    var c: Counters<K> := map[];
    assert Agrees(m, c, StartClock(start));
    LimiterRefines(cfg, m, c, es, StartClock(start));
    var vs := RunWindows(cfg, m, es).1;
    if !vs[i].Shed? {
      RefVerdict(cfg, c, es, Sheds(vs), i);
    }
    hide RunWindows, RunCounters, Agrees, Timely;
  }

  // Which clocks qualify.

  /** The monotonic clock does not go back, and the system clock may be set forward but does not fall behind it. */
  predicate Later(a: Reading, b: Reading) { a.mono <= b.mono && b.mono - a.mono <= b.wall - a.wall }

  predicate LaterEvent<K>(e: Event<K>, now: Reading) {
    match e
    case Request(_, slot, t) =>
      && slot < SLOTS && Later(now, t.retain) && Later(t.retain, t.insert)
      && Later(t.insert, t.minute) && Later(t.minute, t.touch)
    case Prune(at, clock) => at <= clock.mono && Later(now, clock)
    case Forget(_) => true
  }

  function ReadingAfter<K>(e: Event<K>, now: Reading): Reading {
    match e
    case Request(_, _, t) => t.touch
    case Prune(_, clock) => clock
    case Forget(_) => now
  }

  predicate Ordinary<K>(es: seq<Event<K>>, now: Reading)
    decreases |es|
  {
    es == [] || (LaterEvent(es[0], now) && Ordinary(es[1..], ReadingAfter(es[0], now)))
  }

  /** The clock stands at reading `r`, and the system clock has moved as far in this minute as the monotonic one. */
  predicate Stands(k: Clock, r: Reading) {
    && k.minute == MinuteOf(r.wall) && k.since <= k.mono == r.mono && (forall u :: u in k.left ==> u < k.minute)
    && r.mono - k.since <= r.wall - k.minute * MINUTE
  }

  lemma StandsLater(k: Clock, a: Reading, b: Reading, idle: nat)
    requires Stands(k, a) && Later(a, b) && idle >= MINUTE
    ensures Ticks(k, b, idle) && Stands(Tick(k, b), b)
  {
    assert MinuteOf(a.wall) <= MinuteOf(b.wall)
      && MinuteOf(b.wall) * MINUTE <= b.wall < MinuteOf(b.wall) * MINUTE + MINUTE;
    hide MinuteOf;
  }

  /** An idle time of a minute or more, and a system clock that keeps up with the monotonic one, qualify. */
  lemma {:induction false} OrdinaryIsTimely<K>(es: seq<Event<K>>, k: Clock, r: Reading, idle: nat)
    requires Ordinary(es, r) && Stands(k, r) && idle >= MINUTE
    ensures Timely(es, k, idle)
    decreases |es|
  {
    hide Stands, Ticks, Later, MinuteOf;
    if es != [] {
      match es[0] {
        case Request(_, _, t) =>
          StandsLater(k, r, t.retain, idle);
          StandsLater(Tick(k, t.retain), t.retain, t.insert, idle);
          StandsLater(Tick(Tick(k, t.retain), t.insert), t.insert, t.minute, idle);
          StandsLater(TickMinute(k, t), t.minute, t.touch, idle);
        case Prune(_, clock) => StandsLater(k, r, clock, idle);
        case Forget(_) =>
      }
      OrdinaryIsTimely(es[1..], ClockAfter(es[0], k), ReadingAfter(es[0], r), idle);
    }
  }

  function AllAt(r: Reading): Times { Times(r, r, r, r) }

  /** A minute that lasts the idle time on the monotonic clock: a prune lets a second request past a limit of one. */
  lemma LongMinuteFails(idle: nat, a: Reading, b: Reading)
    requires MinuteOf(a.wall) == MinuteOf(b.wall) && a.mono + idle <= b.mono
    ensures var cfg := Config(None, idle, [1, 1, 1]);
      var es := [Request(0, 0, AllAt(a)), Prune(b.mono, b), Request(0, 0, AllAt(b))];
      && |RunWindows(cfg, map[], es).1| == 3
      && AdmittedCount(es, RunWindows(cfg, map[], es).1, 0, 0, MinuteOf(a.wall), 0) == 2 > cfg.limits[0]
  {
    var cfg, u := Config(None, idle, [1, 1, 1]), MinuteOf(a.wall);
    var r1, p, r2 := Request(0, 0, AllAt(a)), Prune(b.mono, b), Request(0, 0, AllAt(b));
    hide MinuteOf, RunWindows, AdmittedCount;
    var (m1, v1) := StepWindows(cfg, map[], r1);
    assert Retained(m1, b.mono, idle) == map[];
    var (m3, v3) := StepWindows(cfg, map[], r2);
    assert v1 == v3 == Admitted && StepWindows(cfg, m1, p) == (map[], Refused);
    hide StepWindows;
    RunThree(cfg, r1, p, r2, u);
  }

  /** A minute entered again: its count starts over, and lets a second request past a limit of one. */
  lemma ReturnFails(idle: nat, a: Reading, b: Reading, c: Reading)
    requires MinuteOf(a.wall) == MinuteOf(c.wall) != MinuteOf(b.wall)
    ensures var cfg := Config(None, idle, [1, 1, 1]);
      var es := [Request(0, 0, AllAt(a)), Request(0, 0, AllAt(b)), Request(0, 0, AllAt(c))];
      && |RunWindows(cfg, map[], es).1| == 3
      && AdmittedCount(es, RunWindows(cfg, map[], es).1, 0, 0, MinuteOf(a.wall), 0) == 2 > cfg.limits[0]
  {
    var cfg, u := Config(None, idle, [1, 1, 1]), MinuteOf(a.wall);
    var r1, r2, r3 := Request(0, 0, AllAt(a)), Request(0, 0, AllAt(b)), Request(0, 0, AllAt(c));
    hide MinuteOf, RunWindows, AdmittedCount;
    var (m1, v1) := StepWindows(cfg, map[], r1);
    var (m2, v2) := StepWindows(cfg, m1, r2);
    var (m3, v3) := StepWindows(cfg, m2, r3);
    assert v1 == v2 == v3 == Admitted;
    hide StepWindows;
    RunThree(cfg, r1, r2, r3, u);
  }

  /** A run of three events, with what is counted for minute `u`. */
  lemma RunThree(cfg: Config, e1: Event<int>, e2: Event<int>, e3: Event<int>, u: nat)
    requires ConfigOk(cfg) && SlotsOk([e1, e2, e3])
    requires (e1.Request? ==> e1.slot < SLOTS) && (e2.Request? ==> e2.slot < SLOTS) && (e3.Request? ==> e3.slot < SLOTS)
    ensures var (m1, v1) := StepWindows(cfg, map[], e1);
      var (m2, v2) := StepWindows(cfg, m1, e2); var v3 := StepWindows(cfg, m2, e3).1;
      && RunWindows(cfg, map[], [e1, e2, e3]).1 == [v1, v2, v3]
      && AdmittedCount([e1, e2, e3], [v1, v2, v3], 0, 0, u, 0) ==
         CountAfter(e3, v3, 0, 0, u, CountAfter(e2, v2, 0, 0, u, CountAfter(e1, v1, 0, 0, u, 0)))
  {
    hide StepWindows, CountAfter;
    var (m1, v1) := StepWindows(cfg, map[], e1);
    var (m2, v2) := StepWindows(cfg, m1, e2);
    assert [e1, e2, e3][1..] == [e2, e3] && [e2, e3][1..] == [e3] && [e3][1..] == [];
    var v3 := StepWindows(cfg, m2, e3).1;
    assert [v1, v2, v3][1..] == [v2, v3] && [v2, v3][1..] == [v3] && [v3][1..] == [];
    assert RunWindows(cfg, m2, [e3]).1 == [v3] && RunWindows(cfg, m1, [e2, e3]).1 == [v2] + [v3];
    assert RunWindows(cfg, map[], [e1, e2, e3]).1 == [v1] + ([v2] + [v3]);
    var n1 := CountAfter(e1, v1, 0, 0, u, 0);
    var n2 := CountAfter(e2, v2, 0, 0, u, n1);
    assert AdmittedCount([e2, e3], [v2, v3], 0, 0, u, n1) == AdmittedCount([e3], [v3], 0, 0, u, n2);
    assert AdmittedCount([e3], [v3], 0, 0, u, n2) == CountAfter(e3, v3, 0, 0, u, n2);
  }

  /** So with any idle time below a minute, even on clocks that keep step. */
  lemma ShortIdleFails(idle: nat)
    requires idle < MINUTE
    ensures var cfg, a, b := Config(None, idle, [1, 1, 1]), Reading(0, 0), Reading(idle, idle);
      var es := [Request(0, 0, AllAt(a)), Prune(idle, b), Request(0, 0, AllAt(b))];
      && Ordinary(es, a) && |RunWindows(cfg, map[], es).1| == 3
      && AdmittedCount(es, RunWindows(cfg, map[], es).1, 0, 0, 0, 0) == 2 > cfg.limits[0]
  {
    var a, b := Reading(0, 0), Reading(idle, idle);
    LongMinuteFails(idle, a, b);
    assert MinuteOf(a.wall) == 0;
    var es := [Request(0, 0, AllAt(a)), Prune(idle, b), Request(0, 0, AllAt(b))];
    assert es[1..][1..] == [es[2]] && es[2..][1..] == [];
    assert Ordinary(es[1..][1..], b) && Ordinary(es[1..], a);
  }
}
