/** Generation numbers over every run of Recovery, and the bounds on giving up. */
module Generations {
  import opened Bytes
  import opened Recovery

  /** Hellos lie only in derived inboxes, and report at most `slack` generations more than their sender has stored. */
  ghost predicate HellosBounded(net: Net, offererOwn: nat, responderOwn: nat, slack: nat) {
    forall id, i :: id in net.boxes && 0 <= i < |net.boxes[id]| && net.boxes[id][i].Hello? ==>
      id.Derived? && net.boxes[id][i].gen <= U32_MAX
      && net.boxes[id][i].gen <= slack + (if id.owner.Offerer? then responderOwn else offererOwn)
  }

  predicate NumbersOk(p: Party, q: Party, slack: nat) {
    p.peer <= p.own <= p.peer + WINDOW && p.own <= U32_MAX && p.peer <= q.own + slack
  }

  /** A party listens on no derived inbox but its own. */
  predicate OwnInbox(p: Party) {
    && (p.recv.Derived? ==> p.recv.owner == p.role)
    && (p.awaiting.Some? ==> p.awaiting.value.fa.Minted?)
  }

  ghost predicate GenerationsOk(s: System, slack: nat) {
    && OwnInbox(s.offerer) && OwnInbox(s.responder)
    && s.offerer.role.Offerer? && s.responder.role.Responder?
    && NumbersOk(s.offerer, s.responder, slack) && NumbersOk(s.responder, s.offerer, slack)
    && HellosBounded(s.net, s.offerer.own, s.responder.own, slack)
  }

  predicate NeverDecreases(s: System, s': System) {
    && s.offerer.own <= s'.offerer.own && s.offerer.peer <= s'.offerer.peer
    && s.responder.own <= s'.responder.own && s.responder.peer <= s'.responder.peer
  }

  lemma PostHello(net: Net, id: Inbox, f: Frame, o: nat, r: nat, slack: nat)
    requires HellosBounded(net, o, r, slack)
    requires f.Hello? ==> id.Derived? && f.gen <= U32_MAX && f.gen <= slack + (if id.owner.Offerer? then r else o)
    ensures HellosBounded(Post(net, id, f), o, r, slack)
  {
    var net' := Post(net, id, f);
    forall b, i | b in net'.boxes && 0 <= i < |net'.boxes[b]| && net'.boxes[b][i].Hello?
      ensures b.Derived? && net'.boxes[b][i].gen <= U32_MAX
      ensures net'.boxes[b][i].gen <= slack + (if b.owner.Offerer? then r else o)
    {
      assert b in net.boxes;
      if !(b == id && i == |net.boxes[id]|) {
        assert net'.boxes[b][i] == net.boxes[b][i];
      }
    }
  }

  lemma PutHello(net: Net, id: Inbox, o: nat, r: nat, slack: nat)
    requires HellosBounded(net, o, r, slack)
    ensures HellosBounded(PutBox(net, id), o, r, slack)
  {}

  lemma {:induction false} ProbeHellos(
    net: Net, to: Role, gens: seq<nat>, hello: Frame, legs: seq<LegAnswer>, o: nat, r: nat, slack: nat)
    requires HellosBounded(net, o, r, slack)
    requires hello.Hello? && hello.gen <= U32_MAX && hello.gen <= slack + (if to.Offerer? then r else o)
    ensures HellosBounded(Probe(net, to, gens, hello, legs), o, r, slack)
    decreases |gens|
  {
    hide HellosBounded;
    if gens != [] {
      var id := Derived(to, gens[0]);
      PutHello(net, id, o, r, slack);
      PostHello(PutBox(net, id), id, hello, o, r, slack);
      ProbeHellos(ProbeLeg(net, to, gens[0], hello, AnswerAt(legs, 0)), to, gens[1..], hello,
                  if legs == [] then [] else legs[1..], o, r, slack);
    }
  }

  lemma Removed(net: Net, net': Net, o: nat, r: nat, slack: nat)
    requires HellosBounded(net, o, r, slack)
    requires forall id :: id in net'.boxes ==>
      net'.boxes[id] == [] || (id in net.boxes && (net'.boxes[id] == net.boxes[id]
        || (net.boxes[id] != [] && net'.boxes[id] == net.boxes[id][1..])))
    ensures HellosBounded(net', o, r, slack)
  {
    forall id, i | id in net'.boxes && 0 <= i < |net'.boxes[id]| && net'.boxes[id][i].Hello?
      ensures id.Derived? && net'.boxes[id][i].gen <= U32_MAX
      ensures net'.boxes[id][i].gen <= slack + (if id.owner.Offerer? then r else o)
    {
      assert net'.boxes[id][i] == net.boxes[id][if net'.boxes[id] == net.boxes[id] then i else i + 1];
    }
  }

  // The bounds of one party's hellos, whatever its role.

  ghost predicate Bounded(net: Net, r: Role, own: nat, peerOwn: nat, slack: nat) {
    if r.Offerer? then HellosBounded(net, own, peerOwn, slack) else HellosBounded(net, peerOwn, own, slack)
  }

  lemma BoundedRises(net: Net, r: Role, own: nat, own': nat, peerOwn: nat, slack: nat)
    requires Bounded(net, r, own, peerOwn, slack) && own <= own'
    ensures Bounded(net, r, own', peerOwn, slack)
  {}

  lemma EnterGenOk(p: Party, net: Net, g: nat, a: Answers, q: Party, stored: nat, slack: nat)
    requires Bounded(net, p.role, stored, q.own, slack) && NumbersOk(p.(own := g), q, slack)
    requires stored <= g
    requires !a.ownPut ==> NumbersOk(p, q, slack) && stored <= p.own
    ensures var r := EnterGen(p, net, g, a);
      && NumbersOk(r.p, q, slack) && Bounded(r.net, p.role, r.p.own, q.own, slack)
      && r.p.role == p.role && r.p.peer == p.peer
    ensures var r := EnterGen(p, net, g, a);
      (r.p.own == if a.ownPut then g else p.own) && (OwnInbox(p) ==> OwnInbox(r.p))
  {
    hide HellosBounded;
    if a.ownPut {
      BoundedRises(net, p.role, stored, g, q.own, slack);
      var id := Derived(p.role, g);
      var o, r := if p.role.Offerer? then g else q.own, if p.role.Offerer? then q.own else g;
      PutHello(net, id, o, r, slack);
      ProbeHellos(PutBox(net, id), Other(p.role), OutboundWindow(p.peer), Hello(g, net.nonces), a.legs, o, r, slack);
      var net2 := Probe(PutBox(net, id), Other(p.role), OutboundWindow(p.peer), Hello(g, net.nonces), a.legs);
      SameBoxes(net2, net2.(nonces := net.nonces + 1), o, r, slack);
    } else {
      BoundedRises(net, p.role, stored, p.own, q.own, slack);
    }
  }

  lemma SameBoxes(net: Net, net': Net, o: nat, r: nat, slack: nat)
    requires HellosBounded(net, o, r, slack) && net'.boxes == net.boxes
    ensures HellosBounded(net', o, r, slack)
  {}

  lemma CutOk(p: Party, net: Net, put: bool, recvSet: bool, legs: seq<LegAnswer>, q: Party, slack: nat)
    requires slack >= 1 && Bounded(net, p.role, p.own, q.own, slack) && NumbersOk(p, q, slack)
    ensures var r := EnterGenCut(p, net, SatInc(p.own), put, recvSet, legs);
      && (r.p.own, r.p.peer, r.p.role) == (p.own, p.peer, p.role)
      && Bounded(r.net, p.role, p.own, q.own, slack) && (OwnInbox(p) ==> OwnInbox(r.p))
  {
    hide HellosBounded;
    var g := SatInc(p.own);
    var o, r := if p.role.Offerer? then p.own else q.own, if p.role.Offerer? then q.own else p.own;
    PutHello(net, Derived(p.role, g), o, r, slack);
    var net1 := PutBox(net, Derived(p.role, g));
    ProbeHellos(net1, Other(p.role), OutboundWindow(p.peer), Hello(g, net.nonces), legs, o, r, slack);
    var net2 := Probe(net1, Other(p.role), OutboundWindow(p.peer), Hello(g, net.nonces), legs);
    SameBoxes(net2, net2.(nonces := net.nonces + 1), o, r, slack);
  }

  lemma RotationHellos(net: Net, id: Inbox, f: Frame, o: nat, r: nat, slack: nat)
    requires HellosBounded(net, o, r, slack) && !f.Hello?
    ensures HellosBounded(Mint(net), o, r, slack) && HellosBounded(Post(Mint(net), id, f), o, r, slack)
  {
    Removed(net, Mint(net), o, r, slack);
    PostHello(Mint(net), id, f, o, r, slack);
  }

  lemma HandleOk(p: Party, net: Net, f: Frame, a: Answers, q: Party, slack: nat)
    requires Bounded(net, p.role, p.own, q.own, slack) && NumbersOk(p, q, slack)
    requires f.Hello? ==> f.gen <= q.own + slack && f.gen <= U32_MAX
    ensures var r := HandleIncoming(p, net, f, a);
      && NumbersOk(r.p, q, slack) && Bounded(r.net, p.role, r.p.own, q.own, slack) && r.p.role == p.role
      && p.own <= r.p.own && p.peer <= r.p.peer && (OwnInbox(p) ==> OwnInbox(r.p))
  {
    hide HellosBounded, MarkSeen;
    var o, r := if p.role.Offerer? then p.own else q.own, if p.role.Offerer? then q.own else p.own;
    match f
    case Chat(_) =>
    case Hello(gen, nonce) =>
      if (gen, nonce) !in p.seen {
        var (own, peer, bumped) := Converge(p.own, p.peer, gen);
        var p1 := p.(seen := MarkSeen(p.seen, gen, nonce), cycles := 0, own := own, peer := peer);
        if bumped {
          BoundedRises(net, p.role, p.own, own, q.own, slack);
          EnterGenOk(p1, net, own, a, q, own, slack);
        } else {
          RotationHellos(net, Derived(Other(p.role), p1.own), Leg(Minted(net.minted)), o, r, slack);
        }
      }
    case Leg(inbox) =>
      RotationHellos(net, Derived(Other(p.role), p.own), Leg(Minted(net.minted)), o, r, slack);
      DropHellos(net, o, r, slack);
      DropHellos(Mint(net), o, r, slack);
      DropHellos(Post(Mint(net), Derived(Other(p.role), p.own), Leg(Minted(net.minted))), o, r, slack);
  }

  lemma DropHellos(net: Net, o: nat, r: nat, slack: nat)
    requires HellosBounded(net, o, r, slack)
    ensures forall id :: HellosBounded(Drop(net, id), o, r, slack)
  {
    forall id
      ensures HellosBounded(Drop(net, id), o, r, slack)
    {
      Removed(net, Drop(net, id), o, r, slack);
    }
  }

  lemma AttemptOk(p: Party, net: Net, a: Answers, q: Party, slack: nat)
    requires Bounded(net, p.role, p.own, q.own, slack) && NumbersOk(p, q, slack)
    ensures var r := RecoverV2(p, net, a);
      && NumbersOk(r.p, q, slack) && Bounded(r.net, p.role, r.p.own, q.own, slack) && r.p.role == p.role
      && p.own <= r.p.own && p.peer == r.p.peer && (OwnInbox(p) ==> OwnInbox(r.p))
  {
    hide HellosBounded;
    if !(Exhausted(p) || !a.ownPut) {
      EnterGenOk(p, net, SatInc(p.own), a, q, p.own, slack);
    }
  }

  /** A party's own step: its numbers grow, its hellos stay bounded. */
  lemma PartyStep(s: System, e: Step, slack: nat)
    requires (e.CutAttempt? ==> slack >= 1) && GenerationsOk(s, slack) && Enabled(s, e)
    requires e.Deliver? || e.Attempt? || e.CutAttempt? || e.Restart?
    ensures GenerationsOk(Apply(s, e), slack) && NeverDecreases(s, Apply(s, e))
  {
    var p, q := Get(s, e.r), Get(s, Other(e.r));
    match e
    case Deliver(r, a) =>
      var net := Popped(s.net, p.recv);
      Removed(s.net, net, s.offerer.own, s.responder.own, slack);
      assert s.net.boxes[p.recv][0] == Head(s, r);
      assert Head(s, r).Hello? ==> Head(s, r).gen <= q.own + slack && Head(s, r).gen <= U32_MAX;
      hide HellosBounded, HandleIncoming;
      HandleOk(p, net, Head(s, r), a, q, slack);
    case Attempt(r, a) =>
      hide HellosBounded, RecoverV2;
      AttemptOk(p, s.net, a, q, slack);
    case CutAttempt(r, put, recvSet, legs) =>
      hide HellosBounded, EnterGenCut;
      CutOk(p, s.net, put, recvSet, legs, q, slack);
    case Restart(r) =>
  }

  lemma GenerationStep(s: System, e: Step, slack: nat)
    requires (e.CutAttempt? ==> slack >= 1) && GenerationsOk(s, slack) && Enabled(s, e)
    ensures GenerationsOk(Apply(s, e), slack) && NeverDecreases(s, Apply(s, e))
  {
    match e
    case Say(r, text) =>
      PostHello(s.net, Get(s, r).send, Chat(text), s.offerer.own, s.responder.own, slack);
    case Lose(id) =>
      Removed(s.net, Drop(s.net, id), s.offerer.own, s.responder.own, slack);
    case _ =>
      hide GenerationsOk, NeverDecreases, Apply, Enabled;
      PartyStep(s, e, slack);
  }

  /**
   Over every run, with any losses, refusals and restarts: each side keeps peer <= own <= peer + W,
   neither number falls, and what one side records of the other is at most what the other has stored,
   or one above it once an attempt may have been cut off.
   */
  lemma {:induction false} GenerationsAlways(s: System, es: seq<Step>, slack: nat)
    requires GenerationsOk(s, slack) && Valid(s, es)
    requires slack >= 1 || forall i :: 0 <= i < |es| ==> !es[i].CutAttempt?
    ensures GenerationsOk(Exec(s, es), slack) && NeverDecreases(s, Exec(s, es))
    decreases |es|
  {
    hide GenerationsOk, Apply, Enabled;
    if es != [] {
      GenerationStep(s, es[0], slack);
      GenerationsAlways(Apply(s, es[0]), es[1..], slack);
    }
  }

  lemma PairingOk(slack: nat)
    ensures GenerationsOk(AfterPairing, slack)
  {}

  const ONE_LEG := [Refused, Delivered]
  const ONE_LEG_ANSWERS := Answers(true, ONE_LEG, true, true, true)

  /** Both pairing inboxes vanish; the offerer's attempt is cut off after its probe, the responder's is not. */
  const CUT_OFF_RUN: seq<Step> := [
    Lose(Paired(Offerer)), Lose(Paired(Responder)),
    CutAttempt(Offerer, true, true, ONE_LEG), Attempt(Responder, ONE_LEG_ANSWERS), Deliver(Responder, ONE_LEG_ANSWERS)]

  lemma ProbeOneLeg(net: Net, to: Role, hello: Frame)
    ensures Probe(net, to, OutboundWindow(0), hello, ONE_LEG) ==
      Post(PutBox(net, Derived(to, 1)), Derived(to, 1), hello)
  {
    assert OutboundWindow(0) == [0, 1, 2, 3];
    var net1 := Post(PutBox(net, Derived(to, 1)), Derived(to, 1), hello);
    assert [0, 1, 2, 3][1..] == [1, 2, 3] && [1, 2, 3][1..] == [2, 3] && [2, 3][1..] == [3];
    assert ONE_LEG[1..] == [Delivered] && [Delivered][1..] == [];
    assert Probe(net1, to, [3], hello, []) == net1;
    assert Probe(net1, to, [2, 3], hello, []) == net1;
    assert Probe(net, to, [1, 2, 3], hello, [Delivered]) == net1;
  }

  /** The one above is reached: the responder has recorded generation 1 of an offerer still storing 0. */
  lemma CutOffRunsAhead()
    ensures Valid(AfterPairing, CUT_OFF_RUN)
    ensures var s := Exec(AfterPairing, CUT_OFF_RUN); s.offerer.own == 0 && s.responder.peer == 1
  {
    hide Probe, OutboundWindow;
    var es, d := CUT_OFF_RUN, Derived(Responder, 1);
    var s1 := Apply(AfterPairing, es[0]);
    var s2 := Apply(s1, es[1]);
    assert s2.net.boxes == map[];
    ProbeOneLeg(PutBox(s2.net, Derived(Offerer, 1)), Responder, Hello(1, 0));
    var s3 := Apply(s2, es[2]);
    assert s3.net.boxes[d] == [Hello(1, 0)] && Paired(Responder) !in s3.net.boxes;
    ProbeOneLeg(PutBox(s3.net, d), Offerer, Hello(1, 1));
    var s4 := Apply(s3, es[3]);
    assert s4.net.boxes[d] == [Hello(1, 0)];
    var s5 := Apply(s4, es[4]);
    assert s5.responder.peer == 1;
    hide Apply, Enabled;
    Then(s4, es[4..]);
    Then(s3, es[3..]);
    Then(s2, es[2..]);
    Then(s1, es[1..]);
    Then(AfterPairing, es);
  }

  /** Unfolds a run by its first step. */
  lemma Then(s: System, es: seq<Step>)
    requires es != [] && Enabled(s, es[0]) && Valid(Apply(s, es[0]), es[1..])
    ensures Valid(s, es) && Exec(s, es) == Exec(Apply(s, es[0]), es[1..])
  {}

  // Giving up.

  /** A new verified hello reaches `r` in this step. */
  predicate Contact(s: System, e: Step, r: Role)
    requires Enabled(s, e)
  {
    e.Deliver? && e.r == r && Head(s, r).Hello? && (Head(s, r).gen, Head(s, r).nonce) !in Get(s, r).seen
  }

  /** A recovery attempt of `r` whose probe ran to completion in this step. */
  predicate Completes(s: System, e: Step, r: Role) {
    e.Attempt? && e.r == r && e.a.ownPut && !Exhausted(Get(s, r))
  }

  predicate NoContact(s: System, es: seq<Step>, r: Role)
    requires Valid(s, es)
    decreases |es|
  {
    es == [] || (!Contact(s, es[0], r) && NoContact(Apply(s, es[0]), es[1..], r))
  }

  function Completed(s: System, es: seq<Step>, r: Role): nat
    requires Valid(s, es)
    decreases |es|
  {
    if es == [] then 0
    else (if Completes(s, es[0], r) then 1 else 0) + Completed(Apply(s, es[0]), es[1..], r)
  }

  /** Without contact a step bumps the own generation and counts a cycle exactly when it completes an attempt. */
  lemma StepWithoutContact(s: System, e: Step, r: Role)
    requires Enabled(s, e) && !Contact(s, e, r) && s.offerer.role.Offerer? && s.responder.role.Responder?
    ensures var p, p', done := Get(s, r), Get(Apply(s, e), r), Completes(s, e, r);
      && Apply(s, e).offerer.role.Offerer? && Apply(s, e).responder.role.Responder?
      && p'.peer == p.peer
      && p'.own == (if done then SatInc(p.own) else p.own)
      && (e != Restart(r) && p.cycles < U32_MAX ==> p'.cycles == p.cycles + (if done then 1 else 0))
  {
    hide Probe, Post, OutboundWindow, MarkSeen, Popped, PutBox, Mint, Drop, Exhausted;
  }

  /** Over all process lives: without contact at most W bumps, one for each completed attempt. */
  lemma {:induction false} BumpsBeforeRepair(s: System, es: seq<Step>, r: Role)
    requires Valid(s, es) && NoContact(s, es, r) && s.offerer.role.Offerer? && s.responder.role.Responder?
    requires Get(s, r).peer <= Get(s, r).own <= Get(s, r).peer + 4 && Get(s, r).own <= U32_MAX
    ensures var p, p' := Get(s, r), Get(Exec(s, es), r);
      && p'.peer == p.peer && p.own <= p'.own <= p.peer + 4
      && (p.peer + 4 <= U32_MAX ==> Completed(s, es, r) == p'.own - p.own)
    decreases |es|
  {
    hide Apply, Enabled;
    if es != [] {
      StepWithoutContact(s, es[0], r);
      BumpsBeforeRepair(Apply(s, es[0]), es[1..], r);
    }
  }

  /** Within one process life: without contact exactly the completed attempts are counted, and three exhaust. */
  lemma {:induction false} CyclesBeforeRepair(s: System, es: seq<Step>, r: Role)
    requires Valid(s, es) && NoContact(s, es, r) && s.offerer.role.Offerer? && s.responder.role.Responder?
    requires Restart(r) !in es && Get(s, r).cycles <= 3
    ensures var p, p' := Get(s, r), Get(Exec(s, es), r);
      && p'.cycles == p.cycles + Completed(s, es, r) <= 3
      && (Completed(s, es, r) == 3 - p.cycles ==> Exhausted(p'))
    decreases |es|
  {
    hide Apply, Enabled;
    if es != [] {
      StepWithoutContact(s, es[0], r);
      assert es[0] != Restart(r) && Restart(r) !in es[1..];
      CyclesBeforeRepair(Apply(s, es[0]), es[1..], r);
    }
  }

  // The bounds in numbers, and runs that reach them.

  lemma {:induction false} ProbeNonces(net: Net, to: Role, gens: seq<nat>, hello: Frame, legs: seq<LegAnswer>)
    ensures Probe(net, to, gens, hello, legs).nonces == net.nonces
    decreases |gens|
  {
    if gens != [] {
      ProbeNonces(ProbeLeg(net, to, gens[0], hello, AnswerAt(legs, 0)), to, gens[1..], hello,
                  if legs == [] then [] else legs[1..]);
    }
  }

  /**
   An attempt changes something if and only if the own inbox is granted, fewer than three probes have gone
   unanswered, and the generations are less than four apart.
   */
  lemma GivesUpExactly(p: Party, net: Net, a: Answers)
    ensures RecoverV2(p, net, a) == Both(p, net) <==>
      !(a.ownPut && p.cycles < 3 && p.own < p.peer + 4 && p.peer < p.own + 4)
  {
    hide Probe, OutboundWindow;
    ProbeNonces(PutBox(net, Derived(p.role, SatInc(p.own))), Other(p.role), OutboundWindow(p.peer),
                Hello(SatInc(p.own), net.nonces), a.legs);
  }

  /** The four generations a probe covers. */
  lemma WindowIs(peer: nat)
    requires peer + 4 <= U32_MAX
    ensures OutboundWindow(peer) == [peer, peer + 1, peer + 2, peer + 3]
  {}

  /** From pairing, in one life of `r` and without contact: at most three completed attempts. */
  lemma ThreeAttemptsPerLife(es: seq<Step>, r: Role)
    requires Valid(AfterPairing, es) && NoContact(AfterPairing, es, r) && Restart(r) !in es
    ensures Completed(AfterPairing, es, r) <= 3 && Get(Exec(AfterPairing, es), r).cycles <= 3
  {
    CyclesBeforeRepair(AfterPairing, es, r);
  }

  /** From pairing, over all lives of `r` and without contact: at most four, and generation four at most. */
  lemma FourAttemptsInAll(es: seq<Step>, r: Role)
    requires Valid(AfterPairing, es) && NoContact(AfterPairing, es, r)
    ensures Completed(AfterPairing, es, r) <= 4 && Get(Exec(AfterPairing, es), r).own <= 4
  {
    BumpsBeforeRepair(AfterPairing, es, r);
  }

  /** The inbox `r` is on after `k` attempts from pairing. */
  function InboxAfter(r: Role, k: nat): Inbox { if k == 0 then Paired(r) else Derived(r, k) }

  /** Losses and attempts of `r` from generation `k` up to `n`, in one life or with a restart before each. */
  function Losses(r: Role, k: nat, n: nat, a: Answers, lives: bool): seq<Step>
    decreases if k < n then n - k else 0
  {
    if k >= n then [Lose(InboxAfter(r, k))]
    else
      (if lives then [Restart(r)] else []) + [Lose(InboxAfter(r, k)), Attempt(r, a)] + Losses(r, k + 1, n, a, lives)
  }

  predicate Alone(s: System, r: Role, k: nat, lives: bool) {
    var p := Get(s, r);
    p.role == r && p.own == k && p.peer == 0 && p.recv == InboxAfter(r, k) && (!lives ==> p.cycles == k)
  }

  lemma LoseAndAttempt(s: System, r: Role, k: nat, a: Answers, lives: bool)
    requires Alone(s, r, k, lives) && a.ownPut && k < (if lives then 4 else 3) && (lives ==> Get(s, r).cycles == 0)
    ensures var s1 := Apply(s, Lose(InboxAfter(r, k)));
      && Enabled(s1, Attempt(r, a)) && Completes(s1, Attempt(r, a), r)
      && Alone(Apply(s1, Attempt(r, a)), r, k + 1, lives)
  {
    hide Probe, OutboundWindow;
  }

  lemma {:induction false} LossesRun(s: System, r: Role, k: nat, n: nat, a: Answers, lives: bool)
    requires Alone(s, r, k, lives) && a.ownPut && k <= n <= (if lives then 4 else 3)
    ensures var es := Losses(r, k, n, a, lives);
      && Valid(s, es) && NoContact(s, es, r) && Completed(s, es, r) == n - k
      && Alone(Exec(s, es), r, n, lives) && Get(Exec(s, es), r).recv !in Exec(s, es).net.boxes
    decreases n - k
  {
    var lose := Lose(InboxAfter(r, k));
    if k == n {
      Onward(s, lose, [], r);
      assert [lose] + [] == [lose];
    } else {
      hide Apply, Alone, Valid, NoContact, Completed, Exec, Completes, Losses;
      var rest := Losses(r, k + 1, n, a, lives);
      var s0 := if lives then Apply(s, Restart(r)) else s;
      RestartAlone(s, r, k);
      LoseAndAttempt(s0, r, k, a, lives);
      var s1 := Apply(s0, lose);
      LossesRun(Apply(s1, Attempt(r, a)), r, k + 1, n, a, lives);
      Onward(s1, Attempt(r, a), rest, r);
      Onward(s0, lose, [Attempt(r, a)] + rest, r);
      var es := [lose] + ([Attempt(r, a)] + rest);
      if lives {
        Onward(s, Restart(r), es, r);
        assert Losses(r, k, n, a, lives) == [Restart(r)] + es by { LossesUnfold(r, k, n, a, lives); }
      } else {
        assert Losses(r, k, n, a, lives) == es by { LossesUnfold(r, k, n, a, lives); }
      }
    }
  }

  lemma RestartAlone(s: System, r: Role, k: nat)
    ensures Alone(s, r, k, true) ==>
      Alone(Apply(s, Restart(r)), r, k, true) && Get(Apply(s, Restart(r)), r).cycles == 0
  {}

  lemma LossesUnfold(r: Role, k: nat, n: nat, a: Answers, lives: bool)
    requires k < n
    ensures Losses(r, k, n, a, lives) ==
      (if lives then [Restart(r)] else [])
      + ([Lose(InboxAfter(r, k))] + ([Attempt(r, a)] + Losses(r, k + 1, n, a, lives)))
  {}

  /** Unfolds a run without contact by its first step. */
  lemma Onward(s: System, e: Step, es: seq<Step>, r: Role)
    requires Enabled(s, e) && Valid(Apply(s, e), es)
    ensures Valid(s, [e] + es) && Exec(s, [e] + es) == Exec(Apply(s, e), es)
    ensures !Contact(s, e, r) && NoContact(Apply(s, e), es, r) ==> NoContact(s, [e] + es, r)
    ensures Completed(s, [e] + es, r) == (if Completes(s, e, r) then 1 else 0) + Completed(Apply(s, e), es, r)
  {
    assert ([e] + es)[1..] == es;
    hide Apply, Enabled, Contact, Completes;
  }

  /**
   Both bounds are reached: three attempts in one life, four over several. After that, with the inbox lost again,
   no attempt changes anything whatever the relay grants, in the latter case not even after another restart.
   */
  lemma BoundsReached(r: Role, a: Answers, lives: bool)
    requires a.ownPut
    ensures var n := if lives then 4 else 3; var es := Losses(r, 0, n, a, lives);
      && Valid(AfterPairing, es) && NoContact(AfterPairing, es, r) && Completed(AfterPairing, es, r) == n
      && var t := Exec(AfterPairing, es);
      && (forall b :: Enabled(t, Attempt(r, b)) && Apply(t, Attempt(r, b)) == t)
      && (lives ==> forall b ::
            var t' := Apply(t, Restart(r)); Enabled(t', Attempt(r, b)) && Apply(t', Attempt(r, b)) == t')
  {
    var n := if lives then 4 else 3;
    LossesRun(AfterPairing, r, 0, n, a, lives);
    var t := Exec(AfterPairing, Losses(r, 0, n, a, lives));
    hide Exec, Losses, Valid, NoContact, Completed;
    forall b
      ensures Enabled(t, Attempt(r, b)) && Apply(t, Attempt(r, b)) == t
    {
      GivesUpExactly(Get(t, r), t.net, b);
    }
    if lives {
      var t' := Apply(t, Restart(r));
      forall b
        ensures Enabled(t', Attempt(r, b)) && Apply(t', Attempt(r, b)) == t'
      {
        GivesUpExactly(Get(t', r), t'.net, b);
      }
    }
  }
}
