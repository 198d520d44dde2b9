/**
 Starting and stopping conversation listeners. Spawns and stops may overlap in any order; each holds the
 `sync` lock for its first part, and a stop then signals and joins the tasks it took without any lock.
 */
module Listeners {
  import opened Bytes

  datatype Task = Task(conv: nat, gen: nat, running: bool)

  /** The live generation: its number, and the handles of its tasks in spawn order. */
  datatype Sync = Sync(gen: nat, handles: seq<nat>)

  /** A stop under way: what it took, what it has yet to join, and whether it has signalled. */
  datatype Stop = Stop(taken: seq<nat>, left: seq<nat>, signalled: bool)

  /** Stops under way and stops returned are named by the generation they took. */
  datatype Engine = Engine(
    listening: set<nat>, sync: Option<Sync>, gens: nat, tasks: seq<Task>,
    stops: map<nat, Stop>, returned: map<nat, seq<nat>>)

  datatype Step =
    | Spawn(conv: nat)
    | Take
    | Signal(gen: nat)
    | Join(gen: nat)
    | Return(gen: nat)
    | Finish(task: nat)

  function SpawnIn(e: Engine, conv: nat): Engine {
    if conv in e.listening then e
    else
      var s := if e.sync.Some? then e.sync.value else Sync(e.gens, []);
      e.(listening := e.listening + {conv},
         gens := if e.sync.Some? then e.gens else e.gens + 1,
         sync := Some(s.(handles := s.handles + [|e.tasks|])),
         tasks := e.tasks + [Task(conv, s.gen, true)])
  }

  /** With nothing live, the stop returns at once. */
  function TakeIn(e: Engine): Engine {
    match e.sync
    case None => e.(listening := {})
    case Some(s) => e.(listening := {}, sync := None, stops := e.stops[s.gen := Stop(s.handles, s.handles, false)])
  }

  /** A stop joins only tasks that have finished; a task may finish by itself or on the signal. */
  predicate Enabled(e: Engine, st: Step) {
    match st
    case Spawn(_) => true
    case Take => true
    case Signal(g) => g in e.stops && !e.stops[g].signalled
    case Join(g) => g in e.stops && e.stops[g].signalled && e.stops[g].left != [] && Finished(e, e.stops[g].left[0])
    case Return(g) => g in e.stops && e.stops[g].signalled && e.stops[g].left == []
    case Finish(t) => t < |e.tasks| && e.tasks[t].running
  }

  predicate Finished(e: Engine, t: nat) { t < |e.tasks| && !e.tasks[t].running }

  function Apply(e: Engine, st: Step): Engine
    requires Enabled(e, st)
  {
    match st
    case Spawn(conv) => SpawnIn(e, conv)
    case Take => TakeIn(e)
    case Signal(g) => e.(stops := e.stops[g := e.stops[g].(signalled := true)])
    case Join(g) => e.(stops := e.stops[g := e.stops[g].(left := e.stops[g].left[1..])])
    case Return(g) => e.(stops := e.stops - {g}, returned := e.returned[g := e.stops[g].taken])
    case Finish(t) => e.(tasks := e.tasks[t := e.tasks[t].(running := false)])
  }

  const Start := Engine({}, None, 0, [], map[], map[])

  /** The locked parts as the engine runs them. */
  class SyncState {
    var listening: set<nat>
    var sync: Option<Sync>
    var gens: nat
    var tasks: seq<Task>

    constructor ()
      ensures View(Start) == Start
    {
      listening, sync, gens, tasks := {}, None, 0, [];
    }

    ghost function View(e: Engine): Engine
      reads this
    {
      e.(listening := listening, sync := sync, gens := gens, tasks := tasks)
    }

    method SpawnConversation(conv: nat, ghost e: Engine)
      requires View(e) == e
      modifies this
      ensures View(e) == SpawnIn(e, conv)
    {
      if conv in listening {
        return;
      }
      listening := listening + {conv};
      if sync.None? {
        sync := Some(Sync(gens, []));
        gens := gens + 1;
      }
      var s := sync.value;
      tasks := tasks + [Task(conv, s.gen, true)];
      sync := Some(s.(handles := s.handles + [|tasks| - 1]));
    }

    method TakeSync(ghost e: Engine) returns (handles: seq<nat>)
      requires View(e) == e
      modifies this
      ensures View(TakeIn(e)) == TakeIn(e)
      ensures handles == if e.sync.Some? then e.sync.value.handles else []
    {
      listening := {};
      handles := if sync.Some? then sync.value.handles else [];
      sync := None;
    }
  }

  // The invariant.

  predicate Member(e: Engine, t: nat, gen: nat) { t < |e.tasks| && e.tasks[t].gen == gen }

  predicate Apart(e: Engine, t: nat, u: nat) {
    t < |e.tasks| && u < |e.tasks| && (t != u ==> e.tasks[t].conv != e.tasks[u].conv)
  }

  ghost predicate Covered(e: Engine, c: nat, handles: seq<nat>) {
    exists t :: t in handles && t < |e.tasks| && e.tasks[t].conv == c
  }

  /** The live generation's tasks are one per listened conversation. */
  ghost predicate LiveOk(e: Engine) {
    match e.sync
    case None => e.listening == {}
    case Some(s) =>
      && s.gen < e.gens && s.gen !in e.stops && s.gen !in e.returned
      && (forall t :: t in s.handles ==> Member(e, t, s.gen))
      && (forall t, u :: t in s.handles && u in s.handles ==> Apart(e, t, u))
      && (forall c :: c in e.listening ==> Covered(e, c, s.handles))
      && (forall t :: t in s.handles ==> e.tasks[t].conv in e.listening)
  }

  predicate Unjoined(s: Stop, t: nat) { t in s.left }

  /** What a stop took and has already joined has finished. */
  ghost predicate StopOk(e: Engine, g: nat, s: Stop) {
    && g < e.gens
    && (forall t :: t in s.taken ==> Member(e, t, g))
    && (forall t :: t in s.taken ==> Unjoined(s, t) || Finished(e, t))
  }

  ghost predicate StopsOk(e: Engine) { forall g :: g in e.stops ==> StopOk(e, g, e.stops[g]) }

  ghost predicate ReturnedOk(e: Engine) {
    forall g :: g in e.returned ==> g < e.gens && forall t :: t in e.returned[g] ==> Finished(e, t)
  }

  /** The live generation, or a stop that has not joined it yet, holds it. */
  predicate Held(e: Engine, t: nat) {
    || (e.sync.Some? && t in e.sync.value.handles)
    || (t < |e.tasks| && e.tasks[t].gen in e.stops && Unjoined(e.stops[e.tasks[t].gen], t))
  }

  ghost predicate TasksOk(e: Engine) {
    forall t :: 0 <= t < |e.tasks| ==> e.tasks[t].gen < e.gens && (e.tasks[t].running ==> Held(e, t))
  }

  ghost predicate ListenOk(e: Engine) { LiveOk(e) && StopsOk(e) && ReturnedOk(e) && TasksOk(e) }

  lemma SpawnCovers(e: Engine, conv: nat)
    requires LiveOk(e) && conv !in e.listening
    ensures var e' := SpawnIn(e, conv); forall c :: c in e'.listening ==> Covered(e', c, e'.sync.value.handles)
  {
    var e', n := SpawnIn(e, conv), |e.tasks|;
    var h := if e.sync.Some? then e.sync.value.handles else [];
    assert n in e'.sync.value.handles && e'.tasks[n].conv == conv;
    forall c | c in e.listening
      ensures Covered(e', c, h + [n])
    {
      assert Covered(e, c, h);
      var t :| t in h && t < n && e.tasks[t].conv == c;
      assert t in h + [n] && e'.tasks[t] == e.tasks[t];
    }
  }

  lemma SpawnLive(e: Engine, conv: nat)
    requires LiveOk(e) && StopsOk(e) && ReturnedOk(e) && conv !in e.listening
    ensures LiveOk(SpawnIn(e, conv))
  {
    SpawnCovers(e, conv);
    var e', n := SpawnIn(e, conv), |e.tasks|;
    var h := if e.sync.Some? then e.sync.value.handles else [];
    assert e'.sync.value.handles == h + [n] && e'.tasks[n].conv == conv;
    assert forall t: nat :: t < n ==> e'.tasks[t] == e.tasks[t];
    hide Covered;
  }

  lemma SpawnOk(e: Engine, conv: nat)
    requires ListenOk(e)
    ensures ListenOk(SpawnIn(e, conv))
  {
    if conv !in e.listening {
      SpawnLive(e, conv);
      var e', n := SpawnIn(e, conv), |e.tasks|;
      assert n in e'.sync.value.handles;
      assert forall t: nat :: t < n ==> e'.tasks[t] == e.tasks[t];
      forall t | 0 <= t < n
        ensures e.tasks[t].running ==> Held(e', t)
      {
        assert e.tasks[t].running ==> Held(e, t);
      }
      forall g | g in e.stops
        ensures StopOk(e', g, e.stops[g])
      {
        assert StopOk(e, g, e.stops[g]);
      }
      hide LiveOk;
    }
  }

  lemma TakeOk(e: Engine)
    requires ListenOk(e)
    ensures ListenOk(TakeIn(e))
  {
    var e' := TakeIn(e);
    forall g | g in e'.stops
      ensures StopOk(e', g, e'.stops[g])
    {
      assert g in e.stops ==> StopOk(e, g, e.stops[g]);
    }
    forall t | 0 <= t < |e.tasks|
      ensures e.tasks[t].running ==> Held(e', t)
    {
      assert e.tasks[t].running ==> Held(e, t);
    }
  }

  lemma SignalOk(e: Engine, g: nat)
    requires ListenOk(e) && Enabled(e, Signal(g))
    ensures ListenOk(Apply(e, Signal(g)))
  {
    var e' := Apply(e, Signal(g));
    forall h | h in e'.stops
      ensures StopOk(e', h, e'.stops[h])
    {
      assert StopOk(e, h, e.stops[h]);
    }
    forall t | 0 <= t < |e.tasks|
      ensures e.tasks[t].running ==> Held(e', t)
    {
      assert e.tasks[t].running ==> Held(e, t);
    }
    assert LiveOk(e') by { LiveSame(e, e'); }
    hide LiveOk;
  }

  /** The live part looks at neither joins nor running flags. */
  lemma LiveSame(e: Engine, e': Engine)
    requires LiveOk(e) && e'.listening == e.listening && e'.sync == e.sync && e'.gens == e.gens
      && |e'.tasks| == |e.tasks|
    requires forall t :: 0 <= t < |e.tasks| ==> e'.tasks[t].conv == e.tasks[t].conv && e'.tasks[t].gen == e.tasks[t].gen
    requires e.sync.Some? ==> e.sync.value.gen !in e'.stops && e.sync.value.gen !in e'.returned
    ensures LiveOk(e')
  {
    if e.sync.Some? {
      var h := e.sync.value.handles;
      forall c | c in e.listening
        ensures Covered(e', c, h)
      {
        assert Covered(e, c, h);
        var t :| t in h && t < |e.tasks| && e.tasks[t].conv == c;
        assert e'.tasks[t].conv == c;
      }
      assert forall t, u :: t in h && u in h ==> Apart(e, t, u);
    }
  }

  lemma JoinOk(e: Engine, g: nat)
    requires ListenOk(e) && Enabled(e, Join(g))
    ensures ListenOk(Apply(e, Join(g)))
  {
    var e', s := Apply(e, Join(g)), e.stops[g];
    assert s.left == [s.left[0]] + s.left[1..];
    forall h | h in e'.stops
      ensures StopOk(e', h, e'.stops[h])
    {
      assert StopOk(e, h, e.stops[h]);
      forall t | t in e'.stops[h].taken
        ensures Unjoined(e'.stops[h], t) || Finished(e', t)
      {
        assert Unjoined(e.stops[h], t) || Finished(e, t);
      }
    }
    forall t | 0 <= t < |e.tasks|
      ensures e.tasks[t].running ==> Held(e', t)
    {
      assert e.tasks[t].running ==> Held(e, t) && t != s.left[0];
    }
    assert LiveOk(e') by { LiveSame(e, e'); }
    hide LiveOk;
  }

  lemma ReturnOk(e: Engine, g: nat)
    requires ListenOk(e) && Enabled(e, Return(g))
    ensures ListenOk(Apply(e, Return(g)))
  {
    var e' := Apply(e, Return(g));
    assert StopOk(e, g, e.stops[g]);
    forall t | t in e.stops[g].taken
      ensures Finished(e, t)
    {
      assert Unjoined(e.stops[g], t) || Finished(e, t);
    }
    forall h | h in e'.stops
      ensures StopOk(e', h, e'.stops[h])
    {
      assert StopOk(e, h, e.stops[h]);
    }
    forall t | 0 <= t < |e.tasks|
      ensures e.tasks[t].running ==> Held(e', t)
    {
      assert e.tasks[t].running ==> Held(e, t);
    }
    assert LiveOk(e') by { LiveSame(e, e'); }
    hide LiveOk;
  }

  lemma FinishOk(e: Engine, t: nat)
    requires ListenOk(e) && Enabled(e, Finish(t))
    ensures ListenOk(Apply(e, Finish(t)))
  {
    var e' := Apply(e, Finish(t));
    assert forall u: nat :: Finished(e, u) ==> Finished(e', u);
    forall h | h in e'.stops
      ensures StopOk(e', h, e'.stops[h])
    {
      assert StopOk(e, h, e.stops[h]);
    }
    forall u | 0 <= u < |e.tasks|
      ensures e'.tasks[u].running ==> Held(e', u)
    {
      assert e.tasks[u].running ==> Held(e, u);
    }
    assert LiveOk(e') by { LiveSame(e, e'); }
    hide LiveOk;
  }

  lemma ListenStep(e: Engine, st: Step)
    requires ListenOk(e) && Enabled(e, st)
    ensures ListenOk(Apply(e, st))
  {
    hide ListenOk;
    match st
    case Spawn(conv) => SpawnOk(e, conv);
    case Take => TakeOk(e);
    case Signal(g) => SignalOk(e, g);
    case Join(g) => JoinOk(e, g);
    case Return(g) => ReturnOk(e, g);
    case Finish(t) => FinishOk(e, t);
  }

  // Whole runs.

  predicate Valid(e: Engine, es: seq<Step>)
    decreases |es|
  {
    es == [] || (Enabled(e, es[0]) && Valid(Apply(e, es[0]), es[1..]))
  }

  function Exec(e: Engine, es: seq<Step>): Engine
    requires Valid(e, es)
    decreases |es|
  {
    if es == [] then e else Exec(Apply(e, es[0]), es[1..])
  }

  /** The conversations spawned since the last stop took the generation. */
  function SpawnedSince(es: seq<Step>, before: set<nat>): set<nat>
    decreases |es|
  {
    if es == [] then before
    else SpawnedSince(es[1..], match es[0] case Spawn(c) => before + {c} case Take => {} case _ => before)
  }

  lemma {:induction false} ListenAlways(e: Engine, es: seq<Step>)
    requires ListenOk(e) && Valid(e, es)
    ensures ListenOk(Exec(e, es)) && Exec(e, es).listening == SpawnedSince(es, e.listening)
    decreases |es|
  {
    if es != [] {
      ListenStep(e, es[0]);
      assert Apply(e, es[0]).listening ==
        match es[0] case Spawn(c) => e.listening + {c} case Take => {} case _ => e.listening;
      hide ListenOk, Apply, Enabled;
      ListenAlways(Apply(e, es[0]), es[1..]);
    }
  }

  // Every task is listed under its generation.

  predicate Lists(e: Engine, g: nat, ts: seq<nat>) {
    forall t :: 0 <= t < |e.tasks| && e.tasks[t].gen == g ==> t in ts
  }

  ghost predicate ListedOk(e: Engine) {
    && (forall t :: 0 <= t < |e.tasks| ==> e.tasks[t].gen < e.gens)
    && (e.sync.Some? ==> Lists(e, e.sync.value.gen, e.sync.value.handles))
    && (forall g :: g in e.stops ==> g < e.gens && Lists(e, g, e.stops[g].taken))
    && (forall g :: g in e.returned ==> g < e.gens && Lists(e, g, e.returned[g]))
  }

  lemma ListedStep(e: Engine, st: Step)
    requires ListenOk(e) && ListedOk(e) && Enabled(e, st)
    ensures ListedOk(Apply(e, st))
  {
    hide StopsOk, ReturnedOk, TasksOk, Covered;
  }

  lemma {:induction false} ListedAlways(e: Engine, es: seq<Step>)
    requires ListenOk(e) && ListedOk(e) && Valid(e, es)
    ensures ListedOk(Exec(e, es))
    decreases |es|
  {
    hide ListenOk, ListedOk, Apply, Enabled;
    if es != [] {
      ListenStep(e, es[0]);
      ListedStep(e, es[0]);
      ListedAlways(Apply(e, es[0]), es[1..]);
    }
  }

  /**
   Over every interleaving from the start: the listening set is the conversations spawned since the last
   stop took a generation, it is empty when none is live, each of them has exactly one task in the live
   generation and no other conversation has one; and every task of a generation whose stop has returned is one the
   stop took, and has finished.
   */
  lemma ListeningExactly(es: seq<Step>)
    requires Valid(Start, es)
    ensures var e := Exec(Start, es);
      && e.listening == SpawnedSince(es, {})
      && (e.sync.None? ==> e.listening == {})
      && (e.sync.Some? ==> forall c :: c in e.listening <==> Covered(e, c, e.sync.value.handles))
      && (e.sync.Some? ==> forall t, u :: t in e.sync.value.handles && u in e.sync.value.handles ==> Apart(e, t, u))
      && (forall t :: 0 <= t < |e.tasks| && e.tasks[t].gen in e.returned ==>
            t in e.returned[e.tasks[t].gen] && !e.tasks[t].running)
  {
    ListedAlways(Start, es);
    ListenAlways(Start, es);
    hide Exec, SpawnedSince;
  }

  /** No task is lost: once every stop has returned and nothing is live, nothing runs. */
  lemma NothingRunsWhenStopped(es: seq<Step>)
    requires Valid(Start, es)
    ensures var e := Exec(Start, es);
      e.sync.None? && e.stops == map[] ==> forall t: nat :: t < |e.tasks| ==> Finished(e, t)
  {
    ListenAlways(Start, es);
    hide Exec, SpawnedSince, LiveOk, StopsOk;
  }

  /** Two running listeners of one conversation: one of them is being stopped. */
  lemma TwoRunOnlyDuringStop(es: seq<Step>, t: nat, u: nat)
    requires Valid(Start, es)
    requires var e := Exec(Start, es);
      t < u < |e.tasks| && e.tasks[t].running && e.tasks[u].running && e.tasks[t].conv == e.tasks[u].conv
    ensures var e := Exec(Start, es); e.tasks[t].gen in e.stops || e.tasks[u].gen in e.stops
  {
    ListenAlways(Start, es);
    var e := Exec(Start, es);
    assert Held(e, t) && Held(e, u);
    assert e.sync.Some? && t in e.sync.value.handles && u in e.sync.value.handles ==> Apart(e, t, u);
    hide Exec, SpawnedSince;
  }

  // Starts that wait for stops.

  /** Nothing is spawned while a stop is under way. */
  predicate Serial(e: Engine, es: seq<Step>)
    requires Valid(e, es)
    decreases |es|
  {
    es == [] || ((es[0].Spawn? ==> e.stops == map[]) && Serial(Apply(e, es[0]), es[1..]))
  }

  /** Then at most one generation has tasks left, and they are one per conversation. */
  ghost predicate SerialOk(e: Engine) {
    && ListenOk(e) && (e.sync.Some? ==> e.stops == map[])
    && (forall g, h :: g in e.stops && h in e.stops ==> g == h)
    && (forall g :: g in e.stops ==> TakenApart(e, e.stops[g]))
  }

  ghost predicate TakenApart(e: Engine, s: Stop) {
    && (forall t :: t in s.left ==> t in s.taken)
    && (forall t, u :: t in s.taken && u in s.taken ==> Apart(e, t, u))
  }

  lemma SerialStep(e: Engine, st: Step)
    requires SerialOk(e) && Enabled(e, st) && (st.Spawn? ==> e.stops == map[])
    ensures SerialOk(Apply(e, st))
  {
    ListenStep(e, st);
    var e' := Apply(e, st);
    hide ListenOk;
    match st
    case Spawn(_) =>
    case Take =>
      assert LiveOk(e) by { assert ListenOk(e); ListenLive(e); }
    case Signal(g) => assert TakenApart(e, e.stops[g]);
    case Join(g) =>
      assert TakenApart(e, e.stops[g]);
      assert forall t :: t in e'.stops[g].left ==> t in e.stops[g].left;
    case Return(g) => assert forall h :: h in e'.stops ==> h in e.stops;
    case Finish(t) =>
      forall g | g in e'.stops
        ensures TakenApart(e', e'.stops[g])
      {
        assert TakenApart(e, e.stops[g]);
        assert forall t, u :: Apart(e, t, u) ==> Apart(e', t, u);
      }
  }

  lemma ListenLive(e: Engine)
    requires ListenOk(e)
    ensures LiveOk(e)
  {}

  lemma {:induction false} SerialAlways(e: Engine, es: seq<Step>)
    requires SerialOk(e) && Valid(e, es) && Serial(e, es)
    ensures SerialOk(Exec(e, es))
    decreases |es|
  {
    hide SerialOk, Apply, Enabled;
    if es != [] {
      SerialStep(e, es[0]);
      SerialAlways(Apply(e, es[0]), es[1..]);
    }
  }

  /** If starts wait for stops to return, one listener at a time runs for a conversation. */
  lemma OneRunsWhenSerial(es: seq<Step>, t: nat, u: nat)
    requires Valid(Start, es) && Serial(Start, es)
    requires var e := Exec(Start, es);
      t < |e.tasks| && u < |e.tasks| && e.tasks[t].running && e.tasks[u].running && e.tasks[t].conv == e.tasks[u].conv
    ensures t == u
  {
    SerialAlways(Start, es);
    var e := Exec(Start, es);
    assert Held(e, t) && Held(e, u);
    hide Exec;
    if e.sync.Some? {
      assert Apart(e, t, u);
    } else {
      var g := e.tasks[t].gen;
      assert TakenApart(e, e.stops[g]) && Apart(e, t, u);
    }
  }
}
