/**
 Runs that recovery does not survive, each with the condition that decides it: a refused adoption, a probe
 that missed an inbox on the way, a rotation leg read before the announcement, and a second announcement of
 one generation.
 */
module Failures {
  import opened Bytes
  import opened Recovery
  import opened Mail
  import opened Generations
  import opened Convergence
  import opened Outcomes

  // A refused adoption.

  /** `lo` has stored `g` but still listens on its inbox of `k`, to which a side at `g` does not send. */
  predicate Stuck(s: System, lo: Role, k: nat, g: nat) {
    var l, h := Get(s, lo), Get(s, Other(lo));
    && l.own == g > k && l.recv == Derived(lo, k) && l.recv in s.net.boxes
    && h.own >= g && (h.own == g ==> h.send != l.recv)
  }

  /**
   Adopting an announced generation stores it always, and moves the routes if and only if the relay grants
   the own inbox.
   */
  lemma AdoptionNeedsInbox(s: System, e: Step)
    requires HellosOk(s) && e.Deliver? && Enabled(s, e) && RoutedAt(Get(s, e.r), Get(s, e.r).own)
    requires Head(s, e.r).Hello? && Head(s, e.r).gen > Get(s, e.r).own
    ensures var l, l', g := Get(s, e.r), Get(Apply(s, e), e.r), Head(s, e.r).gen;
      && l'.own == g && (RoutedAt(l', g) <==> e.a.ownPut)
      && (!e.a.ownPut ==> Stuck(Apply(s, e), e.r, l.own, g) && !Exhausted(l'))
  {
    var l, f := Get(s, e.r), Head(s, e.r);
    SentOk(s);
    assert In(s.net, l.recv, f) && Sent(s, l.recv, f) && RouteOk(s, l.recv, f);
    assert TidyParty(l, e.r);
    NumbersHere(s, e.r);
    hide HellosOk, In, Probe, OutboundWindow, MarkSeen, Post;
  }

  lemma NumbersHere(s: System, r: Role)
    requires HellosOk(s)
    ensures Get(s, r).peer <= Get(s, r).own
  {
    hide NoncesOk, TidyOk, OneHelloEach, HelloOnce, RoutesOk, HellosBounded;
  }

  /** The side's inbox is not lost, and it reads neither a higher announcement nor a leg. */
  predicate Unhelped(s: System, e: Step, lo: Role)
    requires Enabled(s, e)
  {
    && e != Lose(Get(s, lo).recv)
    && (e.Deliver? && e.r == lo ==>
          !Head(s, lo).Leg? && (Head(s, lo).Hello? ==> Head(s, lo).gen <= Get(s, lo).own))
  }

  predicate AllUnhelped(s: System, es: seq<Step>, lo: Role)
    requires Valid(s, es)
    decreases |es|
  {
    es == [] || (Unhelped(s, es[0], lo) && AllUnhelped(Apply(s, es[0]), es[1..], lo))
  }

  lemma StuckReads(s: System, e: Step, lo: Role, k: nat, g: nat)
    requires TidyOk(s) && Stuck(s, lo, k, g) && e.Deliver? && e.r == lo && Enabled(s, e) && Unhelped(s, e, lo)
    ensures Stuck(Apply(s, e), lo, k, g)
  {
    DeliverDid(s, e);
    PopDid(s.net, Get(s, lo).recv);
    hide Probe, PutBox, OutboundWindow, MarkSeen, Popped, QueueAt, TidyOk;
  }

  lemma OtherReads(s: System, e: Step, lo: Role, k: nat, g: nat)
    requires TidyOk(s) && Stuck(s, lo, k, g) && e.Deliver? && e.r == Other(lo) && Enabled(s, e)
    ensures Stuck(Apply(s, e), lo, k, g)
  {
    var h := Get(s, e.r);
    assert TidyParty(h, e.r);
    assert In(s.net, h.recv, Head(s, e.r)) && Placed(h.recv, Head(s, e.r));
    DeliverDid(s, e);
    PopDid(s.net, h.recv);
    SendMoves(s, e);
    hide Apply, HandleIncoming, Popped, QueueAt, TidyOk, In, MintFree, SeenBelow;
  }

  lemma StuckStep(s: System, e: Step, lo: Role, k: nat, g: nat)
    requires TidyOk(s) && Stuck(s, lo, k, g) && Enabled(s, e) && Unhelped(s, e, lo)
    ensures Stuck(Apply(s, e), lo, k, g)
  {
    assert forall r :: TidyParty(Get(s, r), r);
    match e
    case Deliver(r, _) =>
      if r == lo {
        StuckReads(s, e, lo, k, g);
      } else {
        OtherReads(s, e, lo, k, g);
      }
    case Attempt(r, a) =>
      EnterDid(Get(s, r), s.net, SatInc(Get(s, r).own), a);
      hide EnterGen, QueueAt, Exhausted, TidyOk;
    case CutAttempt(_, _, _, _) =>
      CutKeepsBoxes(s, e);
      CutAdds(s, e);
      hide Apply, QueueAt, TidyOk, OnlyNew, MintFree;
    case Say(_, _) => SayDid(s, e.r, e.text);
    case Lose(_) =>
    case Restart(_) =>
  }

  lemma {:induction false} StuckRun(s: System, es: seq<Step>, lo: Role, k: nat, g: nat)
    requires TidyOk(s) && Stuck(s, lo, k, g) && Valid(s, es) && AllUnhelped(s, es, lo)
    ensures Stuck(Exec(s, es), lo, k, g)
    decreases |es|
  {
    hide TidyOk, Stuck, Apply, Enabled, Unhelped;
    if es != [] {
      StuckStep(s, es[0], lo, k, g);
      TidyStep(s, es[0]);
      StuckRun(Apply(s, es[0]), es[1..], lo, k, g);
    }
  }

  /**
   After a refused adoption, over every run in which that side's inbox is not lost and it reads neither a
   higher announcement nor a leg (whatever else is read, attempted, cut off, lost or restarted), the routes
   are never crossed at any generation.
   */
  lemma RefusedAdoptionSticks(s: System, e: Step, es: seq<Step>, m: nat)
    requires HellosOk(s) && e.Deliver? && Enabled(s, e) && RoutedAt(Get(s, e.r), Get(s, e.r).own) && !e.a.ownPut
    requires Head(s, e.r).Hello? && Head(s, e.r).gen > Get(s, e.r).own
    requires Valid(Apply(s, e), es) && AllUnhelped(Apply(s, e), es, e.r)
    ensures !Matched(Exec(Apply(s, e), es), m)
  {
    var k, g := Get(s, e.r).own, Head(s, e.r).gen;
    AdoptionNeedsInbox(s, e);
    TidyStep(s, e);
    hide Apply, Enabled, Valid, AllUnhelped, Exec, TidyOk;
    StuckRun(Apply(s, e), es, e.r, k, g);
  }

  /** The state after the refusal and the loss of the inbox. */
  function Afterwards(s: System, e: Step): System
    requires Enabled(s, e) && e.Deliver?
  {
    Apply(Apply(s, e), Lose(Get(s, e.r).recv))
  }

  lemma AfterwardsGoes(s: System, e: Step, a: Answers)
    requires HellosOk(s) && e.Deliver? && Enabled(s, e) && RoutedAt(Get(s, e.r), Get(s, e.r).own) && !e.a.ownPut
    requires Head(s, e.r).Hello? && Get(s, e.r).own < Head(s, e.r).gen && Head(s, e.r).gen + 1 < U32_MAX && a.ownPut
    ensures var s2 := Afterwards(s, e); HellosOk(s2) && Goes(s2, e.r, a) && Get(s2, e.r).own == Head(s, e.r).gen
  {
    var r, l, s1 := e.r, Get(s, e.r), Apply(s, e);
    AdoptionNeedsInbox(s, e);
    HellosStep(s, e);
    HellosStep(s1, Lose(l.recv));
    assert Get(Afterwards(s, e), r) == Get(s1, r) && l.recv !in Afterwards(s, e).net.boxes by { LoseOnly(s1, l.recv); }
    assert Get(s1, r).recv == l.recv by {
      assert Stuck(s1, r, l.own, Head(s, r).gen);
      hide Apply;
      HereIs(s, r);
    }
    hide HellosOk, Apply, Exhausted, Stuck;
  }

  lemma LoseOnly(s: System, id: Inbox)
    ensures var s' := Apply(s, Lose(id)); id !in s'.net.boxes && forall r :: Get(s', r) == Get(s, r)
  {}

  lemma HereIs(s: System, r: Role)
    requires HellosOk(s)
    ensures Get(s, r).role == r
  {
    hide NoncesOk, GenerationsOk, OneHelloEach, HelloOnce, RoutesOk;
    assert TidyParty(Get(s, r), r);
  }

  /** On every calm run at target `m` with nothing left to read, routes are crossed at `m` exactly if `ok`. */
  ghost predicate EndsCrossedIff(s: System, calm: seq<Step>, m: nat, hi: Role, ok: bool) {
    Valid(s, calm) && AllCalm(s, calm, m, hi) && Drained(Exec(s, calm)) ==> (Matched(Exec(s, calm), m) <==> ok)
  }

  lemma FullAttemptEnds(s: System, r: Role, a: Answers, calm: seq<Step>)
    requires HellosOk(s) && Goes(s, r, a) && FullProbe(Get(s, r), a)
    ensures var s', g, lo := Apply(s, Attempt(r, a)), Get(s, r).own + 1, Other(r);
      && (Get(s, lo).own < g && Abreast(Get(s, lo)) ==>
            EndsCrossedIff(s', calm, g, r, Astray(s', lo) ==> Returns(s', calm, lo)))
      && (Get(s, lo).own == g && Get(s, lo).recv in s'.net.boxes ==> EndsCrossedIff(s', calm, g, r, true))
  {
    hide HellosOk, Apply, Valid, AllCalm, Exec, Exhausted, Matched, Drained, FullProbe, Abreast, Astray, Returns;
    var s', g, lo := Apply(s, Attempt(r, a)), Get(s, r).own + 1, Other(r);
    ExecNothing(s);
    if Get(s, lo).own == g {
      CaughtUpIsAbreast(s, r);
    }
    if Get(s, lo).own <= g && Abreast(Get(s, lo)) && (Get(s, lo).own == g ==> Get(s, lo).recv in s'.net.boxes)
      && Valid(s', calm) && AllCalm(s', calm, g, r) {
      AttemptConverges(s, [], r, a, calm);
    }
  }

  lemma AheadEnds(s: System, hi: Role, calm: seq<Step>)
    requires HellosOk(s) && Ahead(s, hi)
    ensures EndsCrossedIff(s, calm, Get(s, hi).own, hi, Arrives(s, calm, Get(s, hi).own, Other(hi)))
  {
    hide HellosOk, Valid, AllCalm, Exec, Matched, Drained, Arrives;
    ExecNothing(s);
    if Valid(s, calm) && AllCalm(s, calm, Get(s, hi).own, hi) {
      RecoveryConverges(s, [], hi, calm);
    }
  }

  lemma CaughtUpIsAbreast(s: System, r: Role)
    requires HellosOk(s) && Get(s, r).own < Get(s, Other(r)).own
    ensures Abreast(Get(s, Other(r)))
  {
    assert PlaceOk(Get(s, Other(r)), Get(s, r));
  }

  /**
   What ends it: the loss of that inbox and an attempt, which then starts a recovery like any other. If the
   attempt probes in full and brings that side level or ahead, only a side astray has a step of its own to
   make; if the other side is further ahead, what it announced decides.
   */
  lemma LossAndAttemptEndIt(s: System, e: Step, a: Answers, calm: seq<Step>)
    requires HellosOk(s) && e.Deliver? && Enabled(s, e) && RoutedAt(Get(s, e.r), Get(s, e.r).own) && !e.a.ownPut
    requires Head(s, e.r).Hello? && Get(s, e.r).own < Head(s, e.r).gen && Head(s, e.r).gen + 1 < U32_MAX && a.ownPut
    requires FullProbe(Get(Afterwards(s, e), e.r), a)
    ensures Goes(Afterwards(s, e), e.r, a)
    ensures var s2, r, lo := Afterwards(s, e), e.r, Other(e.r);
      var s3, g, q := Apply(s2, Attempt(r, a)), Head(s, r).gen + 1, Get(s2, lo);
      && (q.own < g && Abreast(q) ==> EndsCrossedIff(s3, calm, g, r, Astray(s3, lo) ==> Returns(s3, calm, lo)))
      && (q.own == g && q.recv in s3.net.boxes ==> EndsCrossedIff(s3, calm, g, r, true))
      && (Ahead(s3, lo) ==> EndsCrossedIff(s3, calm, q.own, lo, Arrives(s3, calm, q.own, r)))
  {
    hide HellosOk, Apply, Afterwards, FullProbe, Exhausted, EndsCrossedIff, Arrives, Astray, Returns, Abreast, Enters;
    AfterwardsGoes(s, e, a);
    var s2, lo := Afterwards(s, e), Other(e.r);
    var s3 := Apply(s2, Attempt(e.r, a));
    FullAttemptEnds(s2, e.r, a, calm);
    AttemptPlaces(s2, e.r, a);
    if Ahead(s3, lo) {
      AheadEnds(s3, lo, calm);
    }
  }

  lemma ExecNothing(s: System)
    ensures Valid(s, []) && Exec(s, []) == s
  {}

  // Runs from pairing.

  lemma {:induction false} RunOn(s: System, es: seq<Step>, more: seq<Step>)
    requires Valid(s, es) && Valid(Exec(s, es), more)
    ensures Valid(s, es + more) && Exec(s, es + more) == Exec(Exec(s, es), more)
    decreases |es|
  {
    hide Apply, Enabled;
    if es == [] {
      assert es + more == more;
    } else {
      RunOn(Apply(s, es[0]), es[1..], more);
      assert (es + more)[1..] == es[1..] + more;
    }
  }

  lemma RunOne(s: System, e: Step)
    requires Enabled(s, e)
    ensures Valid(s, [e]) && Exec(s, [e]) == Apply(s, e)
  {
    assert Valid(Apply(s, e), []) && Exec(Apply(s, e), []) == Apply(s, e);
    hide Apply, Enabled;
  }

  lemma {:induction false} ProbeNothing(net: Net, to: Role, gens: seq<nat>, hello: Frame)
    ensures Probe(net, to, gens, hello, []) == net
    decreases |gens|
  {
    if gens != [] {
      ProbeNothing(net, to, gens[1..], hello);
    }
  }

  /** The relay grants the own inbox and the rotation, and no probe leg. */
  const NO_LEGS := Answers(true, [], true, true, true)

  /** Entering generation `g` without a probe leg. */
  lemma EnterAlone(p: Party, net: Net, g: nat)
    ensures EnterGen(p, net, g, NO_LEGS) ==
      Both(p.(recv := Derived(p.role, g), send := Derived(Other(p.role), g), own := g),
           PutBox(net, Derived(p.role, g)).(nonces := net.nonces + 1))
  {
    ProbeNothing(PutBox(net, Derived(p.role, g)), Other(p.role), OutboundWindow(p.peer), Hello(g, net.nonces));
    hide Probe, OutboundWindow;
  }

  /** Entering generation `g` with the probe reaching only the other side's inbox of generation 1. */
  lemma EnterOneLeg(p: Party, net: Net, g: nat)
    requires p.peer == 0
    ensures EnterGen(p, net, g, ONE_LEG_ANSWERS) ==
      Both(p.(recv := Derived(p.role, g), send := Derived(Other(p.role), g), own := g),
           (var net1, b := PutBox(net, Derived(p.role, g)), Derived(Other(p.role), 1);
            Post(PutBox(net1, b), b, Hello(g, net.nonces)).(nonces := net.nonces + 1)))
  {
    ProbeOneLeg(PutBox(net, Derived(p.role, g)), Other(p.role), Hello(g, net.nonces));
    hide Probe, OutboundWindow;
  }

  /**
   Both pairing inboxes vanish and both sides come back at 1; the offerer loses its inbox twice more, and its
   announcements of 2 and 3 reach only the responder's inbox of 1.
   */
  const MISSED_COPY_RUN: seq<Step> := [
    Lose(Paired(Offerer)), Lose(Paired(Responder)), Attempt(Responder, NO_LEGS), Attempt(Offerer, NO_LEGS),
    Lose(Derived(Offerer, 1)), Attempt(Offerer, ONE_LEG_ANSWERS),
    Lose(Derived(Offerer, 2)), Attempt(Offerer, ONE_LEG_ANSWERS), Deliver(Responder, NO_LEGS)]

  const BOTH_AT_ONE := System(
    Party(Offerer, 1, 0, Derived(Offerer, 1), Derived(Responder, 1), 1, [], None, []),
    Party(Responder, 1, 0, Derived(Responder, 1), Derived(Offerer, 1), 1, [], None, []),
    Net(map[Derived(Responder, 1) := [], Derived(Offerer, 1) := []], 0, 2, map[]))

  lemma ReachBothAtOne()
    ensures Valid(AfterPairing, MISSED_COPY_RUN[..4]) && Exec(AfterPairing, MISSED_COPY_RUN[..4]) == BOTH_AT_ONE
  {
    hide EnterGen, Probe, OutboundWindow;
    var s1 := Apply(AfterPairing, Lose(Paired(Offerer)));
    var s2 := Apply(s1, Lose(Paired(Responder)));
    assert s2.net.boxes == map[];
    EnterAlone(s2.responder, s2.net, 1);
    var s3 := Apply(s2, Attempt(Responder, NO_LEGS));
    assert s3.net.boxes == map[Derived(Responder, 1) := []];
    EnterAlone(s3.offerer, s3.net, 1);
    var s4 := Apply(s3, Attempt(Offerer, NO_LEGS));
    assert s4.net.boxes == map[Derived(Responder, 1) := [], Derived(Offerer, 1) := []];
    assert s4 == BOTH_AT_ONE;
    hide Apply, Enabled;
    var es := MISSED_COPY_RUN[..4];
    assert es[3..] == [Attempt(Offerer, NO_LEGS)] && es[2..][1..] == es[3..] && es[1..][1..] == es[2..];
    RunOne(s3, es[3]);
    Then(s2, es[2..]);
    Then(s1, es[1..]);
    Then(AfterPairing, es);
  }

  lemma AnnouncesTwice() returns (s8: System)
    ensures var es := MISSED_COPY_RUN[4..8]; Valid(BOTH_AT_ONE, es) && s8 == Exec(BOTH_AT_ONE, es)
    ensures s8.net.boxes == map[Derived(Responder, 1) := [Hello(2, 2), Hello(3, 3)], Derived(Offerer, 3) := []]
    ensures s8.responder == BOTH_AT_ONE.responder && s8.offerer.recv == Derived(Offerer, 3) && s8.offerer.own == 3
  {
    hide EnterGen, Probe, OutboundWindow;
    var es, d := MISSED_COPY_RUN[4..8], Derived(Responder, 1);
    var s5 := Apply(BOTH_AT_ONE, es[0]);
    assert s5.net.boxes == map[d := []];
    EnterOneLeg(s5.offerer, s5.net, 2);
    var s6 := Apply(s5, es[1]);
    assert s6.net.boxes.Keys == {d, Derived(Offerer, 2)} && s6.net.boxes[d] == [Hello(2, 2)];
    var s7 := Apply(s6, es[2]);
    assert s7.net.boxes == map[d := [Hello(2, 2)]];
    EnterOneLeg(s7.offerer, s7.net, 3);
    s8 := Apply(s7, es[3]);
    assert s8.net.boxes.Keys == {d, Derived(Offerer, 3)} && s8.net.boxes[d] == [Hello(2, 2), Hello(3, 3)];
    hide Apply, Enabled;
    assert es[3..] == [es[3]] && es[2..][1..] == es[3..] && es[1..][1..] == es[2..];
    RunOne(s7, es[3]);
    Then(s6, es[2..]);
    Then(s5, es[1..]);
    Then(BOTH_AT_ONE, es);
  }

  lemma MissedCopyEnds()
    ensures Valid(BOTH_AT_ONE, MISSED_COPY_RUN[4..])
    ensures var t := Exec(BOTH_AT_ONE, MISSED_COPY_RUN[4..]);
      && t.offerer.own == 3 && t.responder.own == 2 && Drained(t)
      && In(t.net, Derived(Responder, 1), Hello(3, 3))
  {
    var s8 := AnnouncesTwice();
    MissedCopyLast(s8);
    hide Apply, Enabled, Exec, Valid, Drained;
    RunOne(s8, MISSED_COPY_RUN[8]);
    assert MISSED_COPY_RUN[4..] == MISSED_COPY_RUN[4..8] + [MISSED_COPY_RUN[8]];
    RunOn(BOTH_AT_ONE, MISSED_COPY_RUN[4..8], [MISSED_COPY_RUN[8]]);
  }

  lemma MissedCopyLast(s: System)
    requires s.net.boxes == map[Derived(Responder, 1) := [Hello(2, 2), Hello(3, 3)], Derived(Offerer, 3) := []]
    requires s.responder == BOTH_AT_ONE.responder && s.offerer.recv == Derived(Offerer, 3)
    ensures Enabled(s, Deliver(Responder, NO_LEGS))
    ensures var t := Apply(s, Deliver(Responder, NO_LEGS));
      && t.offerer == s.offerer && t.responder.own == 2 && Drained(t) && In(t.net, Derived(Responder, 1), Hello(3, 3))
  {
    var p, net := s.responder, Popped(s.net, Derived(Responder, 1));
    assert net.boxes == map[Derived(Responder, 1) := [Hello(3, 3)], Derived(Offerer, 3) := []];
    var p1 := p.(seen := MarkSeen(p.seen, 2, 2), cycles := 0, own := 2, peer := 2);
    EnterAlone(p1, net, 2);
    assert HandleIncoming(p, net, Hello(2, 2), NO_LEGS) == EnterGen(p1, net, 2, NO_LEGS) by { hide EnterGen, MarkSeen; }
    hide EnterGen, MarkSeen;
    var t := Apply(s, Deliver(Responder, NO_LEGS));
    assert t.responder.recv == Derived(Responder, 2) && t.net.boxes[Derived(Responder, 2)] == [];
    assert Get(t, Offerer) == t.offerer && Get(t, Responder) == t.responder;
  }

  /**
   A missing copy strands the lower side: the announcement of 3 is left behind in an inbox nobody reads, and
   nothing is left to read.
   */
  lemma MissedCopyStrands()
    ensures Valid(AfterPairing, MISSED_COPY_RUN)
    ensures var t := Exec(AfterPairing, MISSED_COPY_RUN);
      && Drained(t) && (forall m: nat :: !Matched(t, m)) && In(t.net, Derived(Responder, 1), Hello(3, 3))
  {
    ReachBothAtOne();
    MissedCopyEnds();
    assert MISSED_COPY_RUN == MISSED_COPY_RUN[..4] + MISSED_COPY_RUN[4..];
    RunOn(AfterPairing, MISSED_COPY_RUN[..4], MISSED_COPY_RUN[4..]);
    hide Exec, Valid, Drained;
  }

  /** Every request is granted. */
  const ALL_LEGS := Answers(true, [Delivered, Delivered, Delivered, Delivered], true, true, true)

  /**
   Both pairing inboxes vanish; the responder comes back at 1 and its announcement reaches the offerer, which
   starts a rotation. Its inbox is lost, it comes back at 2 and probes in full, behind its own leg.
   */
  const LEG_AHEAD_RUN: seq<Step> := [
    Lose(Paired(Offerer)), Lose(Paired(Responder)), Attempt(Responder, ONE_LEG_ANSWERS), Attempt(Offerer, NO_LEGS),
    Deliver(Offerer, NO_LEGS), Lose(Derived(Offerer, 1)), Attempt(Offerer, ALL_LEGS), Deliver(Responder, NO_LEGS)]

  /** After the offerer's return to 1: the announcement waits for it. */
  const ONE_HELLO := System(
    Party(Offerer, 1, 0, Derived(Offerer, 1), Derived(Responder, 1), 1, [], None, []),
    Party(Responder, 1, 0, Derived(Responder, 1), Derived(Offerer, 1), 1, [], None, []),
    Net(map[Derived(Offerer, 1) := [Hello(1, 0)], Derived(Responder, 1) := []], 0, 2, map[]))

  lemma ReachOneHello()
    ensures Valid(AfterPairing, LEG_AHEAD_RUN[..4]) && Exec(AfterPairing, LEG_AHEAD_RUN[..4]) == ONE_HELLO
  {
    hide EnterGen, Probe, OutboundWindow;
    var es, d := LEG_AHEAD_RUN[..4], Derived(Offerer, 1);
    var s1 := Apply(AfterPairing, es[0]);
    var s2 := Apply(s1, es[1]);
    assert s2.net.boxes == map[];
    EnterOneLeg(s2.responder, s2.net, 1);
    var s3 := Apply(s2, es[2]);
    assert s3.net.boxes.Keys == {d, Derived(Responder, 1)} && s3.net.boxes[d] == [Hello(1, 0)];
    EnterAlone(s3.offerer, s3.net, 1);
    var s4 := Apply(s3, es[3]);
    assert s4.net.boxes == ONE_HELLO.net.boxes && s4 == ONE_HELLO;
    hide Apply, Enabled;
    assert es[3..] == [es[3]] && es[2..][1..] == es[3..] && es[1..][1..] == es[2..];
    RunOne(s3, es[3]);
    Then(s2, es[2..]);
    Then(s1, es[1..]);
    Then(AfterPairing, es);
  }

  /** The leg is queued for the responder and the offerer's inbox is lost. */
  const HALF_WAY := System(
    Party(Offerer, 1, 1, Derived(Offerer, 1), Derived(Responder, 1), 0, [(1, 0)],
          Some(Awaiting(Minted(0), Derived(Offerer, 1))), []),
    ONE_HELLO.responder,
    Net(map[Derived(Responder, 1) := [Leg(Minted(0))], Minted(0) := []], 1, 2, map[]))

  lemma ReachHalfWay()
    ensures Valid(ONE_HELLO, LEG_AHEAD_RUN[4..6]) && Exec(ONE_HELLO, LEG_AHEAD_RUN[4..6]) == HALF_WAY
  {
    var es, d, r := LEG_AHEAD_RUN[4..6], Derived(Offerer, 1), Derived(Responder, 1);
    var s5 := Apply(ONE_HELLO, es[0]);
    assert s5.net.boxes.Keys == {d, r, Minted(0)} && s5.net.boxes[r] == [Leg(Minted(0))];
    assert s5.offerer.seen == [(1, 0)];
    var s6 := Apply(s5, es[1]);
    assert s6.net.boxes.Keys == {r, Minted(0)};
    assert s6.net.boxes == HALF_WAY.net.boxes && s6 == HALF_WAY;
    hide Apply, Enabled;
    assert es[1..] == [es[1]];
    RunOne(s5, es[1]);
    Then(ONE_HELLO, es);
  }

  lemma HalfWayGoes()
    ensures Enabled(HALF_WAY, Attempt(Offerer, ALL_LEGS))
    ensures Goes(HALF_WAY, Offerer, ALL_LEGS) && FullProbe(HALF_WAY.offerer, ALL_LEGS)
    ensures OutboundWindow(HALF_WAY.offerer.peer) == [1, 2, 3, 4] && AnswerAt(ALL_LEGS.legs, 0).Delivered?
  {
    assert OutboundWindow(1) == [1, 2, 3, 4];
  }

  lemma ProbesBehindLeg() returns (s7: System)
    ensures Enabled(HALF_WAY, Attempt(Offerer, ALL_LEGS)) && s7 == Apply(HALF_WAY, Attempt(Offerer, ALL_LEGS))
    ensures s7.responder == HALF_WAY.responder && s7.net.minted == 1
    ensures s7.offerer.own == 2 && s7.offerer.recv == Derived(Offerer, 2)
    ensures QueueAt(s7.net, Derived(Responder, 1)) == [Leg(Minted(0)), Hello(2, 2)]
    ensures QueueAt(s7.net, Derived(Offerer, 2)) == [] && Derived(Offerer, 2) in s7.net.boxes
  {
    hide EnterGen, OutboundWindow, AnswerAt;
    HalfWayGoes();
    s7 := Apply(HALF_WAY, Attempt(Offerer, ALL_LEGS));
    EnterDid(HALF_WAY.offerer, HALF_WAY.net, 2, ALL_LEGS);
    var b, d := Derived(Responder, 1), Derived(Offerer, 2);
    assert s7.net == EnterGen(HALF_WAY.offerer, HALF_WAY.net, 2, ALL_LEGS).net;
    assert Grown(b, Responder, Hello(2, 2), QueueAt(HALF_WAY.net, b), QueueAt(s7.net, b));
    assert Grown(d, Responder, Hello(2, 2), QueueAt(HALF_WAY.net, d), QueueAt(s7.net, d));
    assert In(s7.net, Derived(Responder, OutboundWindow(HALF_WAY.offerer.peer)[0]), Hello(2, 2));
  }

  lemma LegIsReadFirst(s: System)
    requires s.responder == HALF_WAY.responder && s.net.minted == 1
    requires s.offerer.own == 2 && s.offerer.recv == Derived(Offerer, 2)
    requires QueueAt(s.net, Derived(Offerer, 2)) == [] && Derived(Offerer, 2) in s.net.boxes
    requires QueueAt(s.net, Derived(Responder, 1)) == [Leg(Minted(0)), Hello(2, 2)]
    ensures Enabled(s, Deliver(Responder, NO_LEGS)) && Calm(s, Deliver(Responder, NO_LEGS), 2, Offerer)
    ensures var t := Apply(s, Deliver(Responder, NO_LEGS));
      && t.offerer == s.offerer && t.responder.own == 1 && t.responder.recv == Minted(1) && Minted(1) in t.net.boxes
      && Drained(t) && Derived(Offerer, 2) in t.net.boxes && Derived(Responder, 1) !in t.net.boxes
  {
    var t := Apply(s, Deliver(Responder, NO_LEGS));
    assert Get(t, Offerer) == t.offerer && Get(t, Responder) == t.responder;
  }

  /**
   A rotation half-way strands the lower side: it reads the leg in front of the announcement, moves to a fresh
   inbox and deletes the one the full probe reached. Nothing is left to read, and its inbox is live.
   */
  lemma LegAheadStrands()
    ensures Valid(AfterPairing, LEG_AHEAD_RUN[..6]) && Exec(AfterPairing, LEG_AHEAD_RUN[..6]) == HALF_WAY
    ensures Goes(HALF_WAY, Offerer, ALL_LEGS) && FullProbe(HALF_WAY.offerer, ALL_LEGS)
    ensures Astray(Apply(HALF_WAY, Attempt(Offerer, ALL_LEGS)), Responder)
    ensures Valid(AfterPairing, LEG_AHEAD_RUN)
    ensures var t := Exec(AfterPairing, LEG_AHEAD_RUN);
      && Drained(t) && (forall m: nat :: !Matched(t, m))
      && t.offerer.recv in t.net.boxes && t.responder.recv in t.net.boxes
  {
    hide Apply, Enabled, Exec, Valid, Drained, Goes, FullProbe, Calm;
    HalfWayGoes();
    ReachOneHello();
    ReachHalfWay();
    var s7 := ProbesBehindLeg();
    LegIsReadFirst(s7);
    assert LegFirst(QueueAt(s7.net, s7.responder.recv), 1);
    hide QueueAt, LegFirst;
    var es := LEG_AHEAD_RUN;
    RunOne(HALF_WAY, es[6]);
    RunOne(s7, es[7]);
    RunOn(AfterPairing, es[..4], es[4..6]);
    assert es[..6] == es[..4] + es[4..6];
    RunOn(HALF_WAY, [es[6]], [es[7]]);
    RunOn(AfterPairing, es[..6], [es[6]] + [es[7]]);
    assert es == es[..6] + ([es[6]] + [es[7]]);
  }

  /**
   The responder's first attempt is cut off after its probe and made again, so two announcements of
   generation 1 wait for the offerer.
   */
  const TWO_HELLOS_RUN: seq<Step> := [
    Lose(Paired(Offerer)), Lose(Paired(Responder)), CutAttempt(Responder, true, true, ONE_LEG),
    Lose(Derived(Responder, 1)), Attempt(Responder, ONE_LEG_ANSWERS), Attempt(Offerer, NO_LEGS)]

  /** The offerer reads both, the responder answers the first leg, the offerer takes the answer. */
  const TWO_STARTS_RUN: seq<Step> := [
    Deliver(Offerer, NO_LEGS), Deliver(Offerer, NO_LEGS), Deliver(Responder, NO_LEGS), Deliver(Offerer, NO_LEGS)]

  const TWO_HELLOS := System(
    Party(Offerer, 1, 0, Derived(Offerer, 1), Derived(Responder, 1), 1, [], None, []),
    Party(Responder, 1, 0, Derived(Responder, 1), Derived(Offerer, 1), 1, [], None, []),
    Net(map[Derived(Offerer, 1) := [Hello(1, 0), Hello(1, 1)], Derived(Responder, 1) := []], 0, 3, map[]))

  const AFTER_CUT := System(
    PairedParty(Offerer), PairedParty(Responder).(recv := Derived(Responder, 1)),
    Net(map[Derived(Offerer, 1) := [Hello(1, 0)], Derived(Responder, 1) := []], 0, 1, map[]))

  lemma ReachCut()
    ensures Valid(AfterPairing, TWO_HELLOS_RUN[..3]) && Exec(AfterPairing, TWO_HELLOS_RUN[..3]) == AFTER_CUT
  {
    hide EnterGen, Probe, OutboundWindow;
    var es, d := TWO_HELLOS_RUN[..3], Derived(Offerer, 1);
    var s1 := Apply(AfterPairing, es[0]);
    var s2 := Apply(s1, es[1]);
    assert s2.net.boxes == map[];
    ProbeOneLeg(PutBox(s2.net, Derived(Responder, 1)), Offerer, Hello(1, 0));
    var s3 := Apply(s2, es[2]);
    assert s3.net.boxes.Keys == {d, Derived(Responder, 1)} && s3.net.boxes[d] == [Hello(1, 0)];
    assert s3.net.boxes == AFTER_CUT.net.boxes && s3 == AFTER_CUT;
    hide Apply, Enabled;
    assert es[2..] == [es[2]] && es[1..][1..] == es[2..];
    RunOne(s2, es[2]);
    Then(s1, es[1..]);
    Then(AfterPairing, es);
  }

  lemma ReachTwoHellos()
    ensures Valid(AFTER_CUT, TWO_HELLOS_RUN[3..]) && Exec(AFTER_CUT, TWO_HELLOS_RUN[3..]) == TWO_HELLOS
  {
    hide EnterGen, Probe, OutboundWindow;
    var es, d := TWO_HELLOS_RUN[3..], Derived(Offerer, 1);
    var s4 := Apply(AFTER_CUT, es[0]);
    assert s4.net.boxes == map[d := [Hello(1, 0)]];
    EnterOneLeg(s4.responder, s4.net, 1);
    var s5 := Apply(s4, es[1]);
    assert s5.net.boxes.Keys == {d, Derived(Responder, 1)} && s5.net.boxes[d] == [Hello(1, 0), Hello(1, 1)];
    EnterAlone(s5.offerer, s5.net, 1);
    var s6 := Apply(s5, es[2]);
    assert s6.net.boxes == TWO_HELLOS.net.boxes && s6 == TWO_HELLOS;
    hide Apply, Enabled;
    assert es[2..] == [es[2]] && es[1..][1..] == es[2..];
    RunOne(s5, es[2]);
    Then(s4, es[1..]);
    Then(AFTER_CUT, es);
  }

  const TWO_LEGS := System(
    Party(Offerer, 1, 1, Derived(Offerer, 1), Derived(Responder, 1), 0, [(1, 0), (1, 1)],
          Some(Awaiting(Minted(1), Derived(Offerer, 1))), []),
    TWO_HELLOS.responder,
    Net(map[Derived(Offerer, 1) := [], Derived(Responder, 1) := [Leg(Minted(0)), Leg(Minted(1))],
            Minted(0) := [], Minted(1) := []], 2, 3, map[]))

  lemma BothStart()
    ensures var es := TWO_STARTS_RUN[..2];
      Valid(TWO_HELLOS, es) && Exec(TWO_HELLOS, es) == TWO_LEGS && Starts(TWO_HELLOS, es, 1, 0) == 2
  {
    var es, d, r := TWO_STARTS_RUN[..2], Derived(Offerer, 1), Derived(Responder, 1);
    var s0 := TWO_HELLOS;
    var s1 := Apply(s0, es[0]);
    assert s1.net.boxes.Keys == {d, r, Minted(0)} && s1.net.boxes[d] == [Hello(1, 1)]
      && s1.net.boxes[r] == [Leg(Minted(0))];
    assert s1.offerer.seen == [(1, 0)];
    var s2 := Apply(s1, es[1]);
    assert s2.net.boxes.Keys == TWO_LEGS.net.boxes.Keys && s2.net.boxes[r] == [Leg(Minted(0)), Leg(Minted(1))];
    assert s2.net.boxes == TWO_LEGS.net.boxes;
    assert s2.offerer.seen == [(1, 0), (1, 1)];
    assert s2 == TWO_LEGS;
    assert StartsAfter(s0, es[0], 1, 0) == 1 && StartsAfter(s1, es[1], 1, 1) == 2;
    hide Apply, Enabled, StartsAfter;
    assert es[1..] == [es[1]] && es[1..][1..] == [];
    RunOne(s1, es[1]);
    Then(s0, es);
    assert Starts(s1, es[1..], 1, 1) == 2;
  }

  lemma FirstIsAnswered()
    ensures var es := TWO_STARTS_RUN[2..];
      && Valid(TWO_LEGS, es)
      && var t := Exec(TWO_LEGS, es);
      && Drained(t) && t.offerer.recv == Minted(1) && t.responder.send == Minted(0)
  {
    var es, d := TWO_STARTS_RUN[2..], Derived(Offerer, 1);
    var s3 := Apply(TWO_LEGS, es[0]);
    assert s3.net.boxes.Keys == {d, Minted(0), Minted(1), Minted(2)} && s3.net.boxes[d] == [Leg(Minted(2))];
    var t := Apply(s3, es[1]);
    assert t.net.boxes.Keys == {Minted(0), Minted(1), Minted(2)} && t.net.boxes[Minted(1)] == []
      && t.net.boxes[Minted(2)] == [];
    assert Get(t, Offerer) == t.offerer && Get(t, Responder) == t.responder;
    hide Apply, Enabled;
    assert es[1..] == [es[1]];
    RunOne(s3, es[1]);
    Then(TWO_LEGS, es);
  }

  /** A second start is reachable, and leaves the responder sending to an inbox the offerer never reads. */
  lemma TwoStartsReached()
    ensures Level(TWO_HELLOS, 1) && Valid(TWO_HELLOS, TWO_STARTS_RUN[..2])
      && Starts(TWO_HELLOS, TWO_STARTS_RUN[..2], 1, 0) == 2
    ensures Valid(AfterPairing, TWO_HELLOS_RUN) && Exec(AfterPairing, TWO_HELLOS_RUN) == TWO_HELLOS
    ensures Valid(AfterPairing, TWO_HELLOS_RUN + TWO_STARTS_RUN)
    ensures var t := Exec(AfterPairing, TWO_HELLOS_RUN + TWO_STARTS_RUN);
      Drained(t) && t.responder.send != t.offerer.recv && forall m: nat :: !Matched(t, m)
  {
    ReachCut();
    ReachTwoHellos();
    BothStart();
    FirstIsAnswered();
    LevelTwoHellos();
    hide Exec, Valid, Drained, Level, Starts;
    assert TWO_HELLOS_RUN == TWO_HELLOS_RUN[..3] + TWO_HELLOS_RUN[3..];
    RunOn(AfterPairing, TWO_HELLOS_RUN[..3], TWO_HELLOS_RUN[3..]);
    assert TWO_STARTS_RUN == TWO_STARTS_RUN[..2] + TWO_STARTS_RUN[2..];
    RunOn(TWO_HELLOS, TWO_STARTS_RUN[..2], TWO_STARTS_RUN[2..]);
    RunOn(AfterPairing, TWO_HELLOS_RUN, TWO_STARTS_RUN);
  }

  lemma LevelTwoHellos()
    ensures Level(TWO_HELLOS, 1)
  {}
}
