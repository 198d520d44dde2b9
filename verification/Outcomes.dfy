/**
 What every run keeps of announcements: fresh nonces, frames only where they belong, and without cut-off
 attempts one hello per generation and inbox. Then recovery as a whole, from any run to crossed routes.
 */
module Outcomes {
  import opened Bytes
  import opened Recovery
  import opened Mail
  import opened Generations
  import opened Convergence
  import opened Weights

  // The frames a step adds.

  /** A frame that was not queued before the step of `r`: its leg, or the hello of the generation it announces. */
  predicate New(s: System, s': System, r: Role, g: nat, b: Inbox, f: Frame) {
    && b.Derived? && b.owner == Other(r)
    && (|| f == Leg(Minted(s.net.minted))
        || (f == Hello(g, s.net.nonces) && s.net.nonces < s'.net.nonces))
  }

  ghost predicate OnlyNew(s: System, s': System, r: Role, g: nat) {
    forall b, f :: In(s'.net, b, f) ==> In(s.net, b, f) || New(s, s', r, g, b, f)
  }

  /** Whoever announces a generation it has just reached sends to the other side's inbox of it. */
  predicate Reaches(p: Party, p': Party, g: nat) {
    g == p'.own && p'.send == Derived(Other(p.role), g) && (p.own < g || g >= U32_MAX)
  }

  lemma DeliverAdds(s: System, e: Step)
    requires e.Deliver? && Enabled(s, e) && MintFree(s.net) && Get(s, e.r).role == e.r
    ensures var s', p, p' := Apply(s, e), Get(s, e.r), Get(Apply(s, e), e.r);
      && OnlyNew(s, s', e.r, p'.own)
      && (forall b, f: Frame :: In(s'.net, b, f) && !In(s.net, b, f) && f.Hello? ==> Announces(s, s', e.r, b, f))
      && MintFree(s'.net) && s.net.minted <= s'.net.minted && s.net.nonces <= s'.net.nonces
  {
    var s', p, f, net := Apply(s, e), Get(s, e.r), Head(s, e.r), Popped(s.net, Get(s, e.r).recv);
    var p' := Get(s', e.r);
    DeliverDid(s, e);
    PopDid(s.net, p.recv);
    assert net.minted == s.net.minted && net.nonces == s.net.nonces;
    forall b, x | In(s'.net, b, x) && !In(s.net, b, x)
      ensures New(s, s', e.r, p'.own, b, x) && (x.Hello? ==> Reaches(p, p', p'.own))
    {
      assert Change(p, p', f, net, s'.net.nonces, b, QueueAt(net, b), QueueAt(s'.net, b));
    }
    hide Apply, Popped, HandleIncoming, QueueAt, In, Change;
  }

  lemma AttemptAdds(s: System, e: Step)
    requires e.Attempt? && Enabled(s, e) && MintFree(s.net) && Get(s, e.r).role == e.r
    ensures var s', p, p' := Apply(s, e), Get(s, e.r), Get(Apply(s, e), e.r);
      && OnlyNew(s, s', e.r, p'.own) && (s' != s ==> Reaches(p, p', p'.own))
      && (forall b, f: Frame :: In(s'.net, b, f) && !In(s.net, b, f) && f.Hello? ==> Announces(s, s', e.r, b, f))
      && MintFree(s'.net) && s.net.minted == s'.net.minted && s.net.nonces <= s'.net.nonces
      && p'.seen == p.seen && p'.awaiting == p.awaiting && Get(s', Other(e.r)) == Get(s, Other(e.r))
  {
    var p := Get(s, e.r);
    EnterDid(p, s.net, SatInc(p.own), e.a);
    if Exhausted(p) || !e.a.ownPut {
      assert Apply(s, e) == s;
    }
    hide EnterGen, QueueAt, Exhausted;
  }

  /** A cut-off attempt at most announces the next generation; what it stores is an inbox. */
  lemma CutAdds(s: System, e: Step)
    requires e.CutAttempt? && Enabled(s, e) && MintFree(s.net) && Get(s, e.r).role == e.r
    ensures var s', p, g := Apply(s, e), Get(s, e.r), SatInc(Get(s, e.r).own);
      && OnlyNew(s, s', e.r, g)
      && MintFree(s'.net) && s.net.minted == s'.net.minted && s.net.nonces <= s'.net.nonces
      && Get(s', e.r) == (if e.put && e.recvSet then p.(recv := Derived(e.r, g)) else p)
      && Get(s', Other(e.r)) == Get(s, Other(e.r))
      && (Derived(e.r, g) in s'.net.boxes <==> e.put || Derived(e.r, g) in s.net.boxes)
  {
    var p, g := Get(s, e.r), SatInc(Get(s, e.r).own);
    var net1 := PutBox(s.net, Derived(p.role, g));
    assert forall b :: QueueAt(net1, b) == QueueAt(s.net, b);
    ProbeAll(net1, Other(p.role), OutboundWindow(p.peer), Hello(g, s.net.nonces), e.legs);
    var net2 := Probe(net1, Other(p.role), OutboundWindow(p.peer), Hello(g, s.net.nonces), e.legs);
    assert forall b :: QueueAt(net2.(nonces := s.net.nonces + 1), b) == QueueAt(net2, b);
    hide Probe, OutboundWindow, PutBox, QueueAt, Exhausted;
  }

  /** Chat, losses and restarts add nothing but chat. */
  lemma OthersAdd(s: System, e: Step)
    requires (e.Say? || e.Lose? || e.Restart?) && MintFree(s.net)
    ensures var s' := Apply(s, e);
      && (forall b, f :: In(s'.net, b, f) ==> In(s.net, b, f) || f.Chat?)
      && (forall b, g: nat :: CopiesAt(s'.net, b, g) <= CopiesAt(s.net, b, g))
      && MintFree(s'.net) && s.net.minted == s'.net.minted && s.net.nonces == s'.net.nonces
      && (forall r :: var p, p' := Get(s, r), Get(s', r);
            p' == p || (e == Restart(r) && p' == p.(cycles := 0, seen := [], awaiting := None)))
  {
    match e
    case Say(r, text) =>
      SayDid(s, r, text);
      SayViews(s, e);
      hide Apply, QueueAt, CopiesAt, SameAbove, FirstLeg;
    case Lose(id) =>
      DropDid(s.net, id);
    case Restart(_) =>
  }

  // Nonces never repeat.

  predicate OldNonce(f: Frame, n: nat) { f.Hello? ==> f.nonce < n }

  ghost predicate NoncesOk(s: System) {
    && (forall b, f :: In(s.net, b, f) ==> OldNonce(f, s.net.nonces))
    && (forall r, x :: x in Get(s, r).seen ==> x.1 < s.net.nonces)
    && MintFree(s.net) && s.offerer.role.Offerer? && s.responder.role.Responder?
  }

  lemma SeenGrows(p: Party, net: Net, f: Frame, a: Answers)
    ensures var p' := HandleIncoming(p, net, f, a).p;
      p'.role == p.role && forall x :: x in p'.seen ==> x in p.seen || (f.Hello? && x == (f.gen, f.nonce))
  {
    hide Probe, PutBox, Post, Mint, Drop, OutboundWindow;
    if f.Hello? {
      MarkSeenEffect(p.seen, f.gen, f.nonce);
      hide MarkSeen;
    }
  }

  lemma NonceStep(s: System, e: Step)
    requires NoncesOk(s) && Enabled(s, e)
    ensures NoncesOk(Apply(s, e))
  {
    assert forall r :: Get(s, r).role == r;
    match e
    case Deliver(r, a) =>
      var p := Get(s, r);
      DeliverAdds(s, e);
      DeliverDid(s, e);
      SeenGrows(p, Popped(s.net, p.recv), Head(s, r), a);
      assert In(s.net, p.recv, Head(s, r)) && OldNonce(Head(s, r), s.net.nonces);
      OneOther(s, e);
      hide Apply, In, HandleIncoming, Handled, Popped, MintFree, Reaches;
    case Attempt(r, a) =>
      AttemptAdds(s, e);
      OneOther(s, e);
      hide Apply, In, MintFree, Reaches;
    case CutAttempt(r, put, recvSet, legs) =>
      CutAdds(s, e);
      OneOther(s, e);
      hide Apply, In, MintFree;
    case _ =>
      OthersAdd(s, e);
      hide Apply, In, MintFree, CopiesAt;
  }

  /** A party's step leaves the other party alone. */
  lemma OneOther(s: System, e: Step)
    requires (e.Deliver? || e.Attempt? || e.CutAttempt?) && Enabled(s, e)
    requires forall r :: Get(s, r).role == r
    ensures forall r :: r != e.r ==> Get(Apply(s, e), r) == Get(s, r)
    ensures forall r :: Get(Apply(s, e), r).role == r
    ensures Apply(s, e).offerer.role.Offerer? && Apply(s, e).responder.role.Responder?
  {
    hide Probe, PutBox, Post, Mint, Drop, OutboundWindow, MarkSeen, Popped, Exhausted;
    assert Get(Apply(s, e), Offerer) == Apply(s, e).offerer && Get(Apply(s, e), Responder) == Apply(s, e).responder;
  }

  /** Over every run, with any losses, refusals, restarts and cut-offs: no nonce seen or queued is drawn again. */
  lemma {:induction false} NoncesAlways(s: System, es: seq<Step>)
    requires NoncesOk(s) && Valid(s, es)
    ensures NoncesOk(Exec(s, es))
    decreases |es|
  {
    hide NoncesOk, Apply, Enabled;
    if es != [] {
      NonceStep(s, es[0]);
      NoncesAlways(Apply(s, es[0]), es[1..]);
    }
  }

  // Frames only where they belong.

  /** Hellos and legs lie in derived inboxes, and a leg names a minted one. */
  predicate Placed(b: Inbox, f: Frame) {
    f.Chat? || (b.Derived? && (f.Leg? ==> f.inbox.Minted?) && (f.Hello? ==> f.gen <= U32_MAX))
  }

  predicate TidyParty(p: Party, r: Role) {
    && p.role == r && p.own <= U32_MAX && SeenBelow(p) && (p.recv.Derived? ==> p.recv.owner == r)
    && (p.awaiting.Some? ==> r.Offerer? && p.awaiting.value.fa.Minted?)
    && (p.awaiting.Some? ==> p.awaiting.value.derived.Derived? && p.awaiting.value.derived.owner == r)
  }

  ghost predicate TidyOk(s: System) {
    && (forall r :: TidyParty(Get(s, r), r)) && MintFree(s.net)
    && (forall b, f :: In(s.net, b, f) ==> Placed(b, f))
  }

  lemma HandleTidy(p: Party, net: Net, f: Frame, a: Answers)
    requires TidyParty(p, p.role) && Placed(p.recv, f)
    ensures TidyParty(HandleIncoming(p, net, f, a).p, p.role)
  {
    SeenStaysBelow(p, net, f, a);
    hide Probe, PutBox, Post, Mint, Drop, OutboundWindow, MarkSeen, SeenBelow;
  }

  lemma DeliverTidy(s: System, e: Step)
    requires TidyOk(s) && e.Deliver? && Enabled(s, e)
    ensures TidyOk(Apply(s, e))
  {
    var p, s' := Get(s, e.r), Apply(s, e);
    assert forall r :: Get(s, r).role == r;
    DeliverAdds(s, e);
    DeliverDid(s, e);
    assert In(s.net, p.recv, Head(s, e.r));
    HandleTidy(p, Popped(s.net, p.recv), Head(s, e.r), e.a);
    OneOther(s, e);
    hide Apply, In, HandleIncoming, Handled, Popped, MintFree, Reaches, SeenBelow, Enabled;
    assert forall r :: TidyParty(Get(s', r), r) by { hide TidyParty; }
    assert s'.net.nonces >= 0 && Get(s', e.r).own <= U32_MAX;
  }

  lemma AttemptTidy(s: System, e: Step)
    requires TidyOk(s) && e.Attempt? && Enabled(s, e)
    ensures TidyOk(Apply(s, e))
  {
    var s' := Apply(s, e);
    assert forall r :: Get(s, r).role == r;
    AttemptAdds(s, e);
    OneOther(s, e);
    assert TidyParty(Get(s', e.r), e.r) by { hide Probe, PutBox, OutboundWindow, Exhausted, QueueAt; }
    hide Apply, In, MintFree, Reaches, SeenBelow, Enabled;
    assert forall r :: TidyParty(Get(s', r), r) by { hide TidyParty; }
    assert Get(s', e.r).own <= U32_MAX;
  }

  lemma CutTidy(s: System, e: Step)
    requires TidyOk(s) && e.CutAttempt? && Enabled(s, e)
    ensures TidyOk(Apply(s, e))
  {
    var s' := Apply(s, e);
    assert forall r :: Get(s, r).role == r;
    CutAdds(s, e);
    OneOther(s, e);
    hide Apply, In, MintFree, SeenBelow, Enabled;
    assert TidyParty(Get(s', e.r), e.r);
    assert forall r :: TidyParty(Get(s', r), r) by { hide TidyParty; }
  }

  lemma TidyStep(s: System, e: Step)
    requires TidyOk(s) && Enabled(s, e)
    ensures TidyOk(Apply(s, e))
  {
    match e
    case Deliver(_, _) => DeliverTidy(s, e);
    case Attempt(_, _) => AttemptTidy(s, e);
    case CutAttempt(_, _, _, _) => CutTidy(s, e);
    case _ =>
      OthersAdd(s, e);
      hide Apply, In, MintFree, CopiesAt;
  }

  // A side on a live inbox of pairing or rotation never hears an announcement.

  predicate Deaf(s: System, p: Party, lo: Role) {
    var l := Get(s, lo);
    && !l.recv.Derived? && l.recv in s.net.boxes
    && l.own == p.own && l.peer == p.peer && l.recv == p.recv && l.send == p.send
  }

  lemma DeafStep(s: System, e: Step, p: Party, lo: Role)
    requires TidyOk(s) && Enabled(s, e) && Deaf(s, p, lo) && e != Lose(p.recv)
    ensures Deaf(Apply(s, e), p, lo)
  {
    assert forall r :: Get(s, r).role == r;
    match e
    case Deliver(r, a) =>
      var q := Get(s, r);
      assert In(s.net, q.recv, Head(s, r)) && Placed(q.recv, Head(s, r));
      DeliverDid(s, e);
      PopDid(s.net, q.recv);
      OneOther(s, e);
      if r == lo {
        assert Apply(s, e).net == Popped(s.net, q.recv);
      } else {
        hide Apply, HandleIncoming, Popped, QueueAt, In, MintFree, SeenBelow;
      }
    case Attempt(r, a) =>
      EnterDid(Get(s, r), s.net, SatInc(Get(s, r).own), a);
      hide EnterGen, QueueAt, Exhausted, In, MintFree;
    case CutAttempt(r, put, recvSet, legs) =>
      CutKeepsBoxes(s, e);
      OneOther(s, e);
      hide Apply, QueueAt, In, MintFree;
    case Say(_, _) => SayDid(s, e.r, e.text);
    case Lose(_) =>
    case Restart(_) =>
  }

  lemma CutKeepsBoxes(s: System, e: Step)
    requires e.CutAttempt? && Enabled(s, e)
    ensures s.net.boxes.Keys <= Apply(s, e).net.boxes.Keys
  {
    var p, g := Get(s, e.r), SatInc(Get(s, e.r).own);
    var net1 := PutBox(s.net, Derived(p.role, g));
    ProbeAll(net1, Other(p.role), OutboundWindow(p.peer), Hello(g, s.net.nonces), e.legs);
    hide Probe, OutboundWindow, QueueAt, In, Exhausted;
  }

  /**
   Over every run, whatever the other side attempts or announces: until the inbox of pairing or of an earlier
   rotation is lost, its reader's generations and routes do not change.
   */
  lemma {:induction false} NeverReadsProbe(s: System, es: seq<Step>, p: Party, lo: Role)
    requires TidyOk(s) && Deaf(s, p, lo) && Valid(s, es) && Lose(p.recv) !in es
    ensures Deaf(Exec(s, es), p, lo)
    decreases |es|
  {
    hide TidyOk, Deaf, Apply, Enabled;
    if es != [] {
      TidyStep(s, es[0]);
      DeafStep(s, es[0], p, lo);
      NeverReadsProbe(Apply(s, es[0]), es[1..], p, lo);
    }
  }

  // One hello per generation and inbox.

  predicate SameNonce(b: Inbox, f: Frame, b': Inbox, f': Frame) {
    f.Hello? && f'.Hello? && b.Derived? && b'.Derived? && b.owner == b'.owner && f.gen == f'.gen < U32_MAX ==>
      f.nonce == f'.nonce
  }

  ghost predicate OneHelloEach(net: Net) {
    forall b, f, b', f' :: In(net, b, f) && In(net, b', f') ==> SameNonce(b, f, b', f')
  }

  ghost predicate HelloOnce(net: Net) { forall b, g: nat :: g < U32_MAX ==> CopiesAt(net, b, g) <= 1 }

  /** A queued hello reports no more than its sender has stored. */
  predicate Sent(s: System, b: Inbox, f: Frame) {
    f.Hello? ==> b.Derived? && f.gen <= U32_MAX && f.gen <= Get(s, Other(b.owner)).own
  }

  /** Whoever's own generation is announced does not send to an older inbox. */
  predicate RouteOk(s: System, b: Inbox, f: Frame) {
    f.Hello? && b.Derived? ==>
      var p := Get(s, Other(b.owner)); f.gen == p.own ==> !(p.send.Derived? && p.send.gen < p.own)
  }

  ghost predicate RoutesOk(s: System) { forall b, f :: In(s.net, b, f) ==> RouteOk(s, b, f) }

  // Legs lie where both sides have been, and whoever is ahead is where it announced itself.

  predicate LegSent(s: System, b: Inbox, f: Frame) {
    f.Leg? ==> b.Derived? && b.gen <= s.offerer.own && b.gen <= s.responder.own
  }

  /** A side behind its own number has adopted it from the other; a side ahead of the other is routed at its number. */
  predicate PlaceOk(p: Party, q: Party) {
    && (p.recv.Derived? ==> p.recv.gen <= p.own && (p.recv.gen < p.own ==> p.peer == p.own))
    && (p.awaiting.Some? && p.awaiting.value.derived.Derived? ==> p.awaiting.value.derived.gen <= p.own)
    && (q.own < p.own ==> RoutedAt(p, p.own))
  }

  ghost predicate LegsOk(s: System) {
    && (forall b, f :: In(s.net, b, f) ==> LegSent(s, b, f))
    && PlaceOk(s.offerer, s.responder) && PlaceOk(s.responder, s.offerer)
  }

  ghost predicate HellosOk(s: System) {
    && GenerationsOk(s, 0) && NoncesOk(s) && TidyOk(s) && OneHelloEach(s.net) && HelloOnce(s.net) && RoutesOk(s)
    && LegsOk(s)
  }

  lemma SentOk(s: System)
    requires GenerationsOk(s, 0)
    ensures forall b, f :: In(s.net, b, f) ==> Sent(s, b, f)
  {
    forall b, f | In(s.net, b, f)
      ensures Sent(s, b, f)
    {
      var i :| 0 <= i < |s.net.boxes[b]| && s.net.boxes[b][i] == f;
    }
  }

  /** What the invariants need of a step of `r`: only the hello of a generation just reached is new. */
  lemma NewKeepsEach(s: System, s': System, r: Role)
    requires (forall b, f :: In(s.net, b, f) ==> Sent(s, b, f)) && OneHelloEach(s.net)
    requires OnlyNew(s, s', r, Get(s', r).own) && Get(s, r).own <= Get(s', r).own
    requires forall b, f :: In(s'.net, b, f) && !In(s.net, b, f) && f.Hello? ==> Announces(s, s', r, b, f)
    ensures OneHelloEach(s'.net)
  {
    hide In;
    forall b, f, b', f' | In(s'.net, b, f) && In(s'.net, b', f')
      ensures SameNonce(b, f, b', f')
    {
      assert In(s.net, b, f) ==> Sent(s, b, f);
      assert In(s.net, b', f') ==> Sent(s, b', f');
      assert In(s.net, b, f) || New(s, s', r, Get(s', r).own, b, f);
      assert In(s.net, b', f') || New(s, s', r, Get(s', r).own, b', f');
      assert !In(s.net, b, f) && f.Hello? ==> Announces(s, s', r, b, f);
      assert !In(s.net, b', f') && f'.Hello? ==> Announces(s, s', r, b', f');
    }
  }

  predicate Announces(s: System, s': System, r: Role, b: Inbox, f: Frame) {
    f.Hello? && b.Derived? && b.owner == Other(r) && Reaches(Get(s, r), Get(s', r), f.gen)
  }

  lemma NewKeepsRoutes(s: System, s': System, r: Role)
    requires (forall b, f :: In(s.net, b, f) ==> Sent(s, b, f)) && RoutesOk(s) && Get(s, r).role == r
    requires OnlyNew(s, s', r, Get(s', r).own) && Get(s, r).own <= Get(s', r).own
      && Get(s', Other(r)) == Get(s, Other(r))
    requires forall b, f :: In(s'.net, b, f) && !In(s.net, b, f) && f.Hello? ==> Announces(s, s', r, b, f)
    requires Get(s', r).own == Get(s, r).own ==>
      Get(s', r).send == Get(s, r).send || !Get(s', r).send.Derived? || Get(s', r).send.gen >= Get(s', r).own
    ensures RoutesOk(s')
  {
    hide In;
    forall b, f | In(s'.net, b, f)
      ensures RouteOk(s', b, f)
    {
      assert In(s.net, b, f) ==> Sent(s, b, f) && RouteOk(s, b, f);
      assert !In(s.net, b, f) && f.Hello? ==> Announces(s, s', r, b, f);
    }
  }

  /** A step of `r` leaves at most one more hello in an inbox, and only of a generation it has just reached. */
  ghost predicate CopiesGrow(s: System, s': System, r: Role) {
    forall b, g: nat :: g < U32_MAX ==>
      CopiesAt(s'.net, b, g) <= CopiesAt(s.net, b, g) + (if AnnouncedAt(s, s', r, b, g) then 1 else 0)
  }

  predicate AnnouncedAt(s: System, s': System, r: Role, b: Inbox, g: nat) {
    b.Derived? && b.owner == Other(r) && g == Get(s', r).own > Get(s, r).own
  }

  lemma DeliverGrows(s: System, e: Step)
    requires e.Deliver? && Enabled(s, e) && MintFree(s.net) && Get(s, e.r).role == e.r
    ensures CopiesGrow(s, Apply(s, e), e.r)
  {
    var s', p, f, net := Apply(s, e), Get(s, e.r), Head(s, e.r), Popped(s.net, Get(s, e.r).recv);
    DeliverDid(s, e);
    PopViews(s.net, p.recv);
    hide Apply, Popped, HandleIncoming, SameAbove, FirstLeg, In;
    forall b, g: nat | g < U32_MAX
      ensures CopiesAt(s'.net, b, g) <= CopiesAt(s.net, b, g) + (if AnnouncedAt(s, s', e.r, b, g) then 1 else 0)
    {
      var q := QueueAt(net, b);
      assert Change(p, Get(s', e.r), f, net, s'.net.nonces, b, q, QueueAt(s'.net, b));
      assert CopiesAt(net, b, g) <= CopiesAt(s.net, b, g);
      AppendViews(q, Leg(Minted(net.minted)), g);
      if f.Hello? {
        AppendViews(q, Hello(f.gen, net.nonces), g);
      }
      hide QueueAt;
    }
  }

  lemma AttemptGrows(s: System, e: Step)
    requires e.Attempt? && Enabled(s, e) && Get(s, e.r).role == e.r && Get(s, e.r).own <= U32_MAX
    ensures CopiesGrow(s, Apply(s, e), e.r)
  {
    var s', p, g0 := Apply(s, e), Get(s, e.r), SatInc(Get(s, e.r).own);
    EnterDid(p, s.net, g0, e.a);
    if !Exhausted(p) && e.a.ownPut {
      assert Get(s', e.r).own == g0;
      forall b, g: nat | g < U32_MAX
        ensures CopiesAt(s'.net, b, g) <= CopiesAt(s.net, b, g) + (if AnnouncedAt(s, s', e.r, b, g) then 1 else 0)
      {
        assert Grown(b, Other(e.r), Hello(g0, s.net.nonces), QueueAt(s.net, b), QueueAt(s'.net, b));
        AppendViews(QueueAt(s.net, b), Hello(g0, s.net.nonces), g);
      }
    }
  }

  lemma GrowKeepsOnce(s: System, s': System, r: Role)
    requires (forall b, f :: In(s.net, b, f) ==> Sent(s, b, f)) && HelloOnce(s.net) && CopiesGrow(s, s', r)
    ensures HelloOnce(s'.net)
  {
    forall b, g: nat | g < U32_MAX
      ensures CopiesAt(s'.net, b, g) <= 1
    {
      if AnnouncedAt(s, s', r, b, g) {
        ViewsSound(QueueAt(s.net, b), g);
        assert forall f :: f in QueueAt(s.net, b) ==> In(s.net, b, f) && Sent(s, b, f);
      }
    }
  }

  lemma SendMoves(s: System, e: Step)
    requires e.Deliver? && Enabled(s, e) && TidyOk(s)
    ensures var p, p' := Get(s, e.r), Get(Apply(s, e), e.r);
      && p.own <= p'.own
      && (p'.own == p.own ==> p'.send == p.send || !p'.send.Derived? || p'.send.gen >= p'.own)
  {
    assert In(s.net, Get(s, e.r).recv, Head(s, e.r)) && Placed(Get(s, e.r).recv, Head(s, e.r));
    hide Probe, PutBox, Post, Mint, Drop, OutboundWindow, MarkSeen, Popped, TidyOk, In;
  }

  lemma HellosPartyStep(s: System, e: Step)
    requires HellosOk(s) && (e.Deliver? || e.Attempt?) && Enabled(s, e)
    ensures var s' := Apply(s, e); OneHelloEach(s'.net) && HelloOnce(s'.net) && RoutesOk(s')
  {
    var s', r := Apply(s, e), e.r;
    SentOk(s);
    assert Get(s, r).role == r && MintFree(s.net) && TidyParty(Get(s, r), r);
    if e.Deliver? {
      DeliverAdds(s, e);
      DeliverGrows(s, e);
      DeliverDid(s, e);
      SendMoves(s, e);
    } else {
      AttemptAdds(s, e);
      AttemptGrows(s, e);
    }
    hide Apply, Enabled, GenerationsOk, NoncesOk, TidyOk, OneHelloEach, HelloOnce, RoutesOk, LegsOk, OnlyNew;
    hide CopiesGrow, MintFree, Handled, HandleIncoming, In;
    NewKeepsEach(s, s', r);
    NewKeepsRoutes(s, s', r);
    GrowKeepsOnce(s, s', r);
  }

  // Legs and places over a step.

  /** A handler of `p` posts a leg only at a generation the other side has reached. */
  lemma LegsReached(s: System, e: Step)
    requires HellosOk(s) && e.Deliver? && Enabled(s, e)
    ensures var p, q, f := Get(s, e.r), Get(s, Other(e.r)), Head(s, e.r);
      f.Leg? || (f.Hello? && f.gen == p.own) ==> p.own <= q.own
  {
    var p, f := Get(s, e.r), Head(s, e.r);
    SentOk(s);
    assert TidyParty(p, e.r);
    assert In(s.net, p.recv, f) && Sent(s, p.recv, f) && LegSent(s, p.recv, f);
    hide NoncesOk, TidyOk, OneHelloEach, HelloOnce, RoutesOk, In, HellosBounded;
  }

  lemma PlaceDeliver(s: System, e: Step)
    requires HellosOk(s) && e.Deliver? && Enabled(s, e)
    ensures var s' := Apply(s, e); var p', q' := Get(s', e.r), Get(s', Other(e.r)); PlaceOk(p', q') && PlaceOk(q', p')
  {
    var p, q, f := Get(s, e.r), Get(s, Other(e.r)), Head(s, e.r);
    SentOk(s);
    LegsReached(s, e);
    assert TidyParty(p, e.r) && TidyParty(q, Other(e.r));
    assert In(s.net, p.recv, f) && Sent(s, p.recv, f) && LegSent(s, p.recv, f);
    assert p.peer <= p.own by { hide HellosBounded; }
    assert PlaceOk(p, q) && PlaceOk(q, p);
    hide HellosOk, In, Probe, PutBox, Post, Mint, Drop, OutboundWindow, MarkSeen, Popped;
  }

  lemma LegsDeliver(s: System, e: Step)
    requires HellosOk(s) && e.Deliver? && Enabled(s, e)
    ensures LegsOk(Apply(s, e))
  {
    var p, f, net, s' := Get(s, e.r), Head(s, e.r), Popped(s.net, Get(s, e.r).recv), Apply(s, e);
    PlaceDeliver(s, e);
    LegsReached(s, e);
    DeliverDid(s, e);
    PopDid(s.net, p.recv);
    assert TidyParty(p, e.r);
    hide Apply, Popped, HandleIncoming, NoncesOk, TidyOk, OneHelloEach, HelloOnce, RoutesOk, GenerationsOk, MintFree;
    forall b, x | In(s'.net, b, x)
      ensures LegSent(s', b, x)
    {
      assert Change(p, Get(s', e.r), f, net, s'.net.nonces, b, QueueAt(net, b), QueueAt(s'.net, b));
      if x in QueueAt(net, b) {
        assert In(s.net, b, x) && LegSent(s, b, x);
      }
    }
  }

  lemma LegsAttempt(s: System, e: Step)
    requires HellosOk(s) && e.Attempt? && Enabled(s, e)
    ensures LegsOk(Apply(s, e))
  {
    var p, q, s' := Get(s, e.r), Get(s, Other(e.r)), Apply(s, e);
    EnterDid(p, s.net, SatInc(p.own), e.a);
    assert TidyParty(p, e.r);
    if Exhausted(p) || !e.a.ownPut {
      assert s' == s;
    } else {
      hide EnterGen, NoncesOk, TidyOk, OneHelloEach, HelloOnce, RoutesOk, GenerationsOk, Exhausted;
      assert s'.net == EnterGen(p, s.net, SatInc(p.own), e.a).net && Get(s', Other(e.r)) == q;
      forall b, x | In(s'.net, b, x)
        ensures LegSent(s', b, x)
      {
        assert Grown(b, Other(p.role), Hello(SatInc(p.own), s.net.nonces), QueueAt(s.net, b), QueueAt(s'.net, b));
        if x in QueueAt(s.net, b) {
          assert In(s.net, b, x) && LegSent(s, b, x);
        }
      }
      assert PlaceOk(p, q) && PlaceOk(q, p);
    }
  }

  lemma LegsStep(s: System, e: Step)
    requires HellosOk(s) && Enabled(s, e) && !e.CutAttempt?
    ensures LegsOk(Apply(s, e))
  {
    if e.Deliver? {
      LegsDeliver(s, e);
    } else if e.Attempt? {
      LegsAttempt(s, e);
    } else {
      var s' := Apply(s, e);
      assert MintFree(s.net);
      OthersAdd(s, e);
      assert Get(s, Offerer) == s.offerer && Get(s, Responder) == s.responder;
      assert Get(s', Offerer) == s'.offerer && Get(s', Responder) == s'.responder;
      hide Apply, NoncesOk, TidyOk, OneHelloEach, HelloOnce, RoutesOk, GenerationsOk, In, CopiesAt;
    }
  }

  lemma HellosStep(s: System, e: Step)
    requires HellosOk(s) && Enabled(s, e) && !e.CutAttempt?
    ensures HellosOk(Apply(s, e))
  {
    GenerationStep(s, e, 0);
    NonceStep(s, e);
    TidyStep(s, e);
    LegsStep(s, e);
    if e.Deliver? || e.Attempt? {
      HellosPartyStep(s, e);
    } else {
      assert MintFree(s.net);
      OthersAdd(s, e);
      OthersKeep(s, Apply(s, e));
    }
    hide GenerationsOk, NoncesOk, TidyOk, OneHelloEach, HelloOnce, RoutesOk, LegsOk, Apply, Enabled;
  }

  lemma OthersKeep(s: System, s': System)
    requires OneHelloEach(s.net) && HelloOnce(s.net) && RoutesOk(s)
    requires forall b, f :: In(s'.net, b, f) ==> In(s.net, b, f) || f.Chat?
    requires forall b, g: nat :: CopiesAt(s'.net, b, g) <= CopiesAt(s.net, b, g)
    requires forall r :: Get(s', r).own == Get(s, r).own && Get(s', r).send == Get(s, r).send
    ensures OneHelloEach(s'.net) && HelloOnce(s'.net) && RoutesOk(s')
  {
    hide In, CopiesAt;
  }

  /**
   Over every run without a cut-off attempt: each generation announces itself with one hello, at most once in
   an inbox.
   */
  lemma {:induction false} HellosAlways(s: System, es: seq<Step>)
    requires HellosOk(s) && Valid(s, es) && forall i :: 0 <= i < |es| ==> !es[i].CutAttempt?
    ensures HellosOk(Exec(s, es))
    decreases |es|
  {
    hide HellosOk, Apply, Enabled;
    if es != [] {
      HellosStep(s, es[0]);
      HellosAlways(Apply(s, es[0]), es[1..]);
    }
  }

  lemma PairingHellosOk()
    ensures HellosOk(AfterPairing)
  {
    PairingOk(0);
  }

  // Recovery as a whole.

  /** `hi` is ahead and its inbox is live. */
  predicate Ahead(s: System, hi: Role) {
    Get(s, Other(hi)).own < Get(s, hi).own < U32_MAX && Get(s, hi).recv in s.net.boxes
  }

  /** In every state of every run, one side being ahead opens a phase of convergence, wherever the other is. */
  lemma AheadStarts(s: System, hi: Role)
    requires HellosOk(s) && Ahead(s, hi)
    ensures Apart(s, Get(s, hi).own, hi) && OneCopy(s, Get(s, hi).own, hi, 0)
  {
    var h, l, m := Get(s, hi), Get(s, Other(hi)), Get(s, hi).own;
    assert forall x :: TidyParty(Get(s, x), x);
    assert Get(s, Offerer) == s.offerer && Get(s, Responder) == s.responder;
    SentOk(s);
    CopiesAhead(s, hi, m);
    hide GenerationsOk, NoncesOk, OneHelloEach, RoutesOk, CopiesAt, MintFree, HelloOnce, QueueAt;
    forall b, f | In(s.net, b, f)
      ensures HelloOk(b, f, m) && LegAt(b, f, l.own + 1, None)
    {
      assert Sent(s, b, f) && LegSent(s, b, f);
    }
    hide In;
  }

  lemma CopiesAhead(s: System, hi: Role, m: nat)
    requires (forall b, f :: In(s.net, b, f) ==> Sent(s, b, f)) && HelloOnce(s.net)
    requires Get(s, Other(hi)).own < m < U32_MAX
    ensures CopiesAt(s.net, Derived(Offerer, m), m) <= (if hi.Offerer? then 0 else 1)
  {
    var d := Derived(Offerer, m);
    ViewsSound(QueueAt(s.net, d), m);
    assert forall f :: f in QueueAt(s.net, d) ==> In(s.net, d, f) && Sent(s, d, f);
  }

  /**
   Recovery as a whole: any run without cut-off attempts from a state like the one after pairing that leaves
   one side ahead on a live inbox, then any calm run. The deliveries are bounded, and when nothing is left to
   read the routes are crossed at that generation if and only if what is queued leads the other side there,
   if it is astray by way of a granted attempt of its own.
   */
  lemma RecoveryConverges(start: System, es: seq<Step>, hi: Role, calm: seq<Step>)
    requires HellosOk(start) && Valid(start, es) && forall i :: 0 <= i < |es| ==> !es[i].CutAttempt?
    requires Ahead(Exec(start, es), hi)
    requires var s := Exec(start, es); Valid(s, calm) && AllCalm(s, calm, Get(s, hi).own, hi)
    ensures var s := Exec(start, es); var t, m := Exec(s, calm), Get(s, hi).own;
      && (Drained(t) ==> (Matched(t, m) <==> Arrives(s, calm, m, Other(hi))))
      && Deliveries(calm) <= Potential(s, m, hi) + Says(calm)
  {
    hide HellosOk, Exec, Apply, Potential, Drained, Valid, AllCalm, Matched, Arrives, Apart, OneCopy;
    HellosAlways(start, es);
    var s := Exec(start, es);
    AheadStarts(s, hi);
    ConvergesOnce(s, calm, Get(s, hi).own, hi);
  }

  /**
   The core: once the announcement is in the inbox the lower side reads, with no leg in front of it and every
   lower announcement there leading on, every order of deliveries ends with the routes crossed at the maximum.
   */
  lemma ProbeReadConverges(s: System, hi: Role, n: nat, calm: seq<Step>)
    requires HellosOk(s) && Ahead(s, hi) && !Astray(s, Other(hi)) && Abreast(Get(s, Other(hi)))
    requires var l, m := Get(s, Other(hi)), Get(s, hi).own;
      && In(s.net, l.recv, Hello(m, n))
      && forall f :: In(s.net, l.recv, f) && f.Hello? && l.own < f.gen < m ==> Reach(s.net, Other(hi), f.gen, m) == m
    requires Valid(s, calm) && AllCalm(s, calm, Get(s, hi).own, hi)
    ensures Drained(Exec(s, calm)) ==> Matched(Exec(s, calm), Get(s, hi).own)
  {
    hide Exec, Drained, Valid, AllCalm, Matched, Reach, Leads, LegFirst, Potential, QueueAt, In;
    var l, m, lo := Get(s, Other(hi)), Get(s, hi).own, Other(hi);
    AheadStarts(s, hi);
    assert l.recv == Derived(lo, l.own) by { assert TidyParty(l, lo); }
    assert HellosUpTo(s.net, m) by { assert Base(s, m); }
    ProbeReaches(s.net, lo, l.own, m, n);
    LeadsIsReach(s.net, lo, l.own, m);
    hide HellosOk, Apart, OneCopy;
    ConvergesOnce(s, calm, m, hi);
  }

  // The attempt that starts it.

  /** The attempt of `r` goes through. */
  predicate Goes(s: System, r: Role, a: Answers) {
    Get(s, r).recv !in s.net.boxes && a.ownPut && !Exhausted(Get(s, r)) && Get(s, r).own + 1 < U32_MAX
  }

  lemma AttemptPlaces(s: System, r: Role, a: Answers)
    requires HellosOk(s) && Goes(s, r, a)
    ensures var s', g := Apply(s, Attempt(r, a)), Get(s, r).own + 1;
      && Enters(s, s.net, s', r, g) && HellosOk(s') && Get(s', Other(r)) == Get(s, Other(r))
  {
    assert TidyParty(Get(s, r), r);
    AttemptEnters(s, r, a);
    HellosStep(s, Attempt(r, a));
    hide Apply, HellosOk, Grown, QueueAt;
  }

  lemma CatchesUpQueues(s: System, r: Role, a: Answers)
    requires HellosOk(s) && Goes(s, r, a) && Get(s, Other(r)).own == Get(s, r).own + 1
    ensures var net', g := Apply(s, Attempt(r, a)).net, Get(s, r).own + 1;
      HellosUpTo(net', g) && Legs(net', g, None) && CopiesAt(net', Derived(Offerer, g), g) <= 1
  {
    hide NoncesOk, TidyOk, OneHelloEach, RoutesOk, Grown, SameAbove, QueueAt, Exhausted;
    var s', g := Apply(s, Attempt(r, a)), Get(s, r).own + 1;
    AttemptPlaces(s, r, a);
    SentOk(s');
    EntersViews(s, s.net, s', r, g, g);
    assert CopiesAt(s'.net, Derived(Offerer, g), g) <= 1;
    hide Apply, GenerationsOk, CopiesAt, HelloOnce;
    forall b, f | In(s'.net, b, f)
      ensures HelloOk(b, f, g) && LegAt(b, f, g, None)
    {
      assert Sent(s', b, f);
      assert In(s.net, b, f) ==> LegSent(s, b, f);
    }
  }

  /** An attempt that catches up: the other side is routed at that generation, and no leg of it is about. */
  lemma CatchesUp(s: System, r: Role, a: Answers)
    requires HellosOk(s) && Goes(s, r, a) && Get(s, Other(r)).own == Get(s, r).own + 1
    requires Get(s, Other(r)).recv in Apply(s, Attempt(r, a)).net.boxes
    ensures var s', g := Apply(s, Attempt(r, a)), Get(s, r).own + 1; Level(s', g) && OneCopy(s', g, r, 0)
  {
    var s', g, q := Apply(s, Attempt(r, a)), Get(s, r).own + 1, Get(s, Other(r));
    AttemptPlaces(s, r, a);
    CatchesUpQueues(s, r, a);
    hide Apply, GenerationsOk, NoncesOk, OneHelloEach, RoutesOk, CopiesAt, MintFree, HelloOnce, QueueAt, Grown;
    hide In, Legs;
    assert RoutedAt(q, g) by { assert PlaceOk(q, Get(s, r)); assert TidyParty(q, Other(r)); }
    assert forall x :: TidyParty(Get(s', x), x);
    assert Get(s', Offerer) == s'.offerer && Get(s', Responder) == s'.responder;
  }

  lemma WindowCovers(p: Party, q: Party, k: nat)
    requires NumbersOk(p, q, 0) && !Exhausted(p) && p.own + 1 < U32_MAX && q.own <= k < p.own + 1
    ensures 0 <= k - p.peer < |OutboundWindow(p.peer)| && OutboundWindow(p.peer)[k - p.peer] == k
  {}

  /** Every leg of the probe is granted. */
  predicate FullProbe(p: Party, a: Answers) {
    forall i :: 0 <= i < |OutboundWindow(p.peer)| ==> AnswerAt(a.legs, i).Delivered?
  }

  lemma ProbeEverywhere(s: System, r: Role, a: Answers)
    requires GenerationsOk(s, 0) && Goes(s, r, a) && FullProbe(Get(s, r), a)
    ensures var s', g, lo := Apply(s, Attempt(r, a)), Get(s, r).own + 1, Other(r);
      forall k: nat :: Get(s, lo).own <= k < g ==> In(s'.net, Derived(lo, k), Hello(g, s.net.nonces))
  {
    var p, q, s', lo := Get(s, r), Get(s, Other(r)), Apply(s, Attempt(r, a)), Other(r);
    var g := p.own + 1;
    assert NumbersOk(p, q, 0) && p.role == r;
    EnterDid(p, s.net, g, a);
    assert s'.net == EnterGen(p, s.net, g, a).net;
    hide Apply, EnterGen, QueueAt, In, GenerationsOk;
    forall k: nat | q.own <= k < g
      ensures In(s'.net, Derived(lo, k), Hello(g, s.net.nonces))
    {
      WindowCovers(p, q, k);
      assert AnswerAt(a.legs, k - p.peer).Delivered?;
      hide OutboundWindow;
    }
  }

  lemma AttemptHellos(s: System, r: Role, a: Answers)
    requires HellosOk(s) && Goes(s, r, a) && Get(s, Other(r)).own <= Get(s, r).own + 1
    ensures HellosUpTo(Apply(s, Attempt(r, a)).net, Get(s, r).own + 1)
  {
    AttemptPlaces(s, r, a);
    var s' := Apply(s, Attempt(r, a));
    SentOk(s');
    hide Apply, GenerationsOk, NoncesOk, TidyOk, OneHelloEach, HelloOnce, RoutesOk, LegsOk, QueueAt, Grown;
    forall b, f | In(s'.net, b, f)
      ensures HelloOk(b, f, Get(s, r).own + 1)
    {
      assert Sent(s', b, f);
    }
  }

  /** A full probe reaches every inbox the other side may read on its way, so it leads all the way. */
  lemma AttemptLands(s: System, r: Role, a: Answers)
    requires HellosOk(s) && Goes(s, r, a) && FullProbe(Get(s, r), a) && Get(s, Other(r)).own <= Get(s, r).own + 1
    ensures var s', g, lo := Apply(s, Attempt(r, a)), Get(s, r).own + 1, Other(r);
      forall k: nat :: Get(s, lo).own <= k <= g ==> Reach(s'.net, lo, k, g) == g
  {
    hide Apply, QueueAt, In, NoncesOk, TidyOk, OneHelloEach, HelloOnce, RoutesOk, LegsOk, GenerationsOk, Exhausted;
    hide FullProbe, Reach, HellosUpTo;
    var s', g, lo := Apply(s, Attempt(r, a)), Get(s, r).own + 1, Other(r);
    AttemptHellos(s, r, a);
    ProbeEverywhere(s, r, a);
    forall k: nat | Get(s, lo).own <= k <= g
      ensures Reach(s'.net, lo, k, g) == g
    {
      FullProbeReaches(s'.net, lo, k, g, s.net.nonces);
    }
  }

  /** Not left on the inbox of an older generation by a refused adoption. */
  predicate Abreast(p: Party) { p.recv.Derived? ==> p.recv.gen == p.own }

  /** A full probe decides where the other side is going; only a side astray has a step of its own to make. */
  lemma FullProbeArrives(s: System, r: Role, a: Answers, calm: seq<Step>)
    requires HellosOk(s) && Goes(s, r, a) && FullProbe(Get(s, r), a)
    requires Get(s, Other(r)).own < Get(s, r).own + 1 && Abreast(Get(s, Other(r)))
    ensures var s', g, lo := Apply(s, Attempt(r, a)), Get(s, r).own + 1, Other(r);
      Arrives(s', calm, g, lo) <==> (Astray(s', lo) ==> Returns(s', calm, lo))
  {
    var s', g, lo := Apply(s, Attempt(r, a)), Get(s, r).own + 1, Other(r);
    var l := Get(s, lo);
    AttemptLands(s, r, a);
    AttemptPlaces(s, r, a);
    assert l.recv.Derived? ==> l.recv == Derived(lo, l.own) by { assert TidyParty(l, lo); }
    LeadsIsReach(s'.net, lo, l.own, g);
    hide Apply, HellosOk, Exhausted, FullProbe, Reach, Leads, Enters, LegFirst, Returns, QueueAt;
  }

  /**
   Any run without cut-off attempts, then an attempt with a full probe that brings a side level or ahead, then
   any calm run: with nothing left to read the routes are crossed at that generation if and only if the other
   side, if it was astray, came back by a granted attempt of its own.
   */
  lemma AttemptConverges(start: System, es: seq<Step>, r: Role, a: Answers, calm: seq<Step>)
    requires HellosOk(start) && Valid(start, es) && forall i :: 0 <= i < |es| ==> !es[i].CutAttempt?
    requires var s := Exec(start, es);
      && Goes(s, r, a) && FullProbe(Get(s, r), a)
      && Get(s, Other(r)).own <= Get(s, r).own + 1 && Abreast(Get(s, Other(r)))
    requires var s := Exec(start, es); var s', g := Apply(s, Attempt(r, a)), Get(s, r).own + 1;
      && (Get(s, Other(r)).own == g ==> Get(s, Other(r)).recv in s'.net.boxes)
      && Valid(s', calm) && AllCalm(s', calm, g, r)
    ensures var s := Exec(start, es); var s', g, lo := Apply(s, Attempt(r, a)), Get(s, r).own + 1, Other(r);
      var t := Exec(s', calm);
      && (Drained(t) ==>
            (Matched(t, g) <==> (Get(s, lo).own < g && Astray(s', lo) ==> Returns(s', calm, lo))))
      && Deliveries(calm) <= Potential(s', g, r) + Says(calm)
  {
    hide HellosOk, Exec, Apply, Exhausted, Potential, Drained, Valid, AllCalm, Matched, Arrives, Apart, Level, OneCopy;
    hide FullProbe, Abreast, Astray, Returns, Enters;
    HellosAlways(start, es);
    var s := Exec(start, es);
    var s', g := Apply(s, Attempt(r, a)), Get(s, r).own + 1;
    AttemptPlaces(s, r, a);
    assert Get(s', r).own == g && Get(s', r).recv in s'.net.boxes by { EntersAt(s, s.net, s', r, g); }
    if Get(s, Other(r)).own == g {
      CatchesUp(s, r, a);
      LevelConvergesOnce(s', calm, g, r);
    } else {
      FullProbeArrives(s, r, a, calm);
      AheadStarts(s', r);
      ConvergesOnce(s', calm, g, r);
    }
  }

  lemma EntersAt(s: System, net: Net, s': System, r: Role, g: nat)
    requires Enters(s, net, s', r, g)
    ensures Get(s', r).own == g && Get(s', r).recv in s'.net.boxes
  {
    hide Grown, QueueAt;
  }

  const BOTH_LOST: seq<Step> := [Lose(Paired(Offerer)), Lose(Paired(Responder))]
  const BOTH_GONE := System(PairedParty(Offerer), PairedParty(Responder), Net(map[], 0, 0, map[]))

  lemma ReachBothGone()
    ensures Valid(AfterPairing, BOTH_LOST) && Exec(AfterPairing, BOTH_LOST) == BOTH_GONE
  {
    var s1 := Apply(AfterPairing, BOTH_LOST[0]);
    var s2 := Apply(s1, BOTH_LOST[1]);
    assert s2.net.boxes == map[];
    assert BOTH_LOST[1..] == [BOTH_LOST[1]] && BOTH_LOST[1..][1..] == [];
    assert Valid(s2, []) && Exec(s2, []) == s2;
    Then(s1, BOTH_LOST[1..]);
    Then(AfterPairing, BOTH_LOST);
  }

  /** After the attempt the other side is astray on its lost inbox, and not exhausted. */
  lemma GoneAttempt(r: Role, a: Answers)
    requires a.ownPut
    ensures Goes(BOTH_GONE, r, a) && Abreast(Get(BOTH_GONE, Other(r)))
    ensures var s' := Apply(BOTH_GONE, Attempt(r, a)); Astray(s', Other(r)) && !SpentAt(s', Other(r))
  {
    EnterDid(PairedParty(r), BOTH_GONE.net, 1, a);
    hide EnterGen;
  }

  /**
   From pairing: the relay forgets both inboxes and one side's attempt probes in full. Then on every calm run
   with nothing left to read the routes are crossed at generation 1 if and only if one of the other side's
   attempts was granted its own inbox.
   */
  lemma BothInboxesLost(r: Role, a: Answers, calm: seq<Step>)
    requires a.ownPut && FullProbe(PairedParty(r), a)
    requires var s' := Apply(BOTH_GONE, Attempt(r, a)); Valid(s', calm) && AllCalm(s', calm, 1, r)
    ensures Valid(AfterPairing, BOTH_LOST) && Exec(AfterPairing, BOTH_LOST) == BOTH_GONE
    ensures var s' := Apply(BOTH_GONE, Attempt(r, a)); var t := Exec(s', calm);
      && (Drained(t) ==> (Matched(t, 1) <==> AnyServed(calm, Other(r))))
      && Deliveries(calm) <= Potential(s', 1, r) + Says(calm)
  {
    hide HellosOk, Exec, Apply, Exhausted, Potential, Drained, Valid, AllCalm, Matched, FullProbe, Astray, SpentAt;
    ReachBothGone();
    PairingHellosOk();
    GoneAttempt(r, a);
    assert Get(BOTH_GONE, r) == PairedParty(r) && Get(BOTH_GONE, Other(r)) == PairedParty(Other(r));
    assert forall i :: 0 <= i < |BOTH_LOST| ==> !BOTH_LOST[i].CutAttempt?;
    AttemptConverges(AfterPairing, BOTH_LOST, r, a, calm);
  }
}
