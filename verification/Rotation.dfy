/**
 The two-leg hand-over onto fresh inboxes: it completes, it loses no chat on its way to the offerer, and
 exactly which refusals and repeats break it.
 */
module Rotation {
  import opened Bytes
  import opened Recovery
  import opened Mail
  import opened Convergence
  import opened Weights

  // Chat in queues.

  function Texts(q: seq<Frame>): seq<nat> {
    if q == [] then [] else (if q[0].Chat? then [q[0].text] else []) + Texts(q[1..])
  }

  function BoxTexts(net: Net, id: Inbox): seq<nat> { Texts(QueueAt(net, id)) }

  lemma {:induction false} TextsAppend(q: seq<Frame>, f: Frame)
    ensures Texts(q + [f]) == Texts(q) + (if f.Chat? then [f.text] else [])
  {
    if q != [] {
      assert (q + [f])[1..] == q[1..] + [f];
      TextsAppend(q[1..], f);
    }
  }

  /** What a delivery does to chat: the reader takes the head of its queue, nothing else moves. */
  lemma DeliverTexts(s: System, e: Step)
    requires e.Deliver? && Enabled(s, e) && MintFree(s.net)
    ensures var s', p, f := Apply(s, e), Get(s, e.r), Head(s, e.r);
      && s'.net.chats == s.net.chats && s'.net.minted >= s.net.minted
      && Get(s', e.r).read == p.read + (if f.Chat? then [f.text] else [])
      && Get(s', Other(e.r)) == Get(s, Other(e.r))
      && BoxTexts(s.net, p.recv) == (if f.Chat? then [f.text] else []) + Texts(s.net.boxes[p.recv][1..])
      && (!f.Leg? ==> BoxTexts(s'.net, p.recv) == Texts(s.net.boxes[p.recv][1..]))
      && (forall b :: b != p.recv && (f.Leg? ==> b != Given(p)) ==> BoxTexts(s'.net, b) == BoxTexts(s.net, b))
  {
    var p, f, net, s' := Get(s, e.r), Head(s, e.r), Popped(s.net, Get(s, e.r).recv), Apply(s, e);
    DeliverDid(s, e);
    PopDid(s.net, p.recv);
    assert net.chats == s.net.chats && net.minted == s.net.minted;
    forall b | f.Leg? ==> b != Given(p)
      ensures BoxTexts(s'.net, b) == BoxTexts(net, b)
    {
      var q := QueueAt(net, b);
      assert Change(p, Get(s', e.r), f, net, s'.net.nonces, b, q, QueueAt(s'.net, b));
      TextsAppend(q, Leg(Minted(net.minted)));
      if f.Hello? {
        TextsAppend(q, Hello(f.gen, net.nonces));
      }
    }
    hide Apply, HandleIncoming, Popped, MintFree;
  }

  // The flow of chat towards the offerer through one rotation.

  /** Chat accepted at the derived inbox from the start, after what had been read or queued then. */
  function Accepted(net: Net, m: nat, base: seq<nat>, k: nat): seq<nat> {
    base + (if k <= |ChatsAt(net, Derived(Offerer, m))| then ChatsAt(net, Derived(Offerer, m))[k..] else [])
  }

  ghost predicate ChatsFresh(net: Net) { forall k: nat :: k >= net.minted ==> Minted(k) !in net.chats }

  ghost predicate DerivedFlow(s: System, m: nat, base: seq<nat>, k: nat) {
    && ChatsFresh(s.net) && k <= |ChatsAt(s.net, Derived(Offerer, m))|
    && s.offerer.read + BoxTexts(s.net, Derived(Offerer, m)) == Accepted(s.net, m, base, k)
  }

  ghost predicate FreshFlow(s: System) {
    && s.offerer.awaiting.Some?
    && BoxTexts(s.net, s.offerer.awaiting.value.fa) == ChatsAt(s.net, s.offerer.awaiting.value.fa)
  }

  ghost predicate RotatedFlow(s: System, m: nat, base: seq<nat>, k: nat) {
    && ChatsFresh(s.net) && BoxTexts(s.net, Derived(Offerer, m)) == []
    && s.offerer.read + BoxTexts(s.net, s.offerer.recv) == Accepted(s.net, m, base, k) + ChatsAt(s.net, s.offerer.recv)
  }

  /** The phases from level generations on, with at most one rotation started, and the flow each keeps. */
  ghost predicate Flow(s: System, m: nat, c: nat, first: Inbox, base: seq<nat>, k: nat) {
    && OneCopy(s, m, Offerer, c)
    && (|| (c == 0 && Level(s, m) && DerivedFlow(s, m, base, k))
        || ((LegOne(s, m, c, first) || LegTwo(s, m, c, first)) && DerivedFlow(s, m, base, k) && FreshFlow(s))
        || (Rotated(s, m, c, first) && RotatedFlow(s, m, base, k)))
  }

  /** Chat posted by `r`: both the queue and the history of a live inbox grow by it. */
  lemma SayFlow(s: System, r: Role, text: nat)
    ensures var net' := Apply(s, Say(r, text)).net; var to := Get(s, r).send;
      && (forall b :: b != to || to !in s.net.boxes ==>
        BoxTexts(net', b) == BoxTexts(s.net, b) && ChatsAt(net', b) == ChatsAt(s.net, b))
      && (to in s.net.boxes ==>
            BoxTexts(net', to) == BoxTexts(s.net, to) + [text] && ChatsAt(net', to) == ChatsAt(s.net, to) + [text])
      && (MintFree(s.net) && ChatsFresh(s.net) ==> ChatsFresh(net'))
  {
    var to := Get(s, r).send;
    if to in s.net.boxes {
      TextsAppend(s.net.boxes[to], Chat(text));
    }
  }

  lemma SayDerived(s: System, e: Step, m: nat, base: seq<nat>, k: nat)
    requires e.Say? && MintFree(s.net) && DerivedFlow(s, m, base, k)
    ensures DerivedFlow(Apply(s, e), m, base, k)
  {
    var s', d := Apply(s, e), Derived(Offerer, m);
    SayFlow(s, e.r, e.text);
    if Get(s, e.r).send == d && d in s.net.boxes {
      var queued, taken := BoxTexts(s.net, d), ChatsAt(s.net, d);
      assert s.offerer.read + (queued + [e.text]) == s.offerer.read + queued + [e.text];
      assert (taken + [e.text])[k..] == taken[k..] + [e.text];
      assert base + (taken[k..] + [e.text]) == base + taken[k..] + [e.text];
    }
    hide BoxTexts, ChatsAt;
  }

  lemma SayFresh(s: System, e: Step)
    requires e.Say? && FreshFlow(s)
    ensures FreshFlow(Apply(s, e))
  {
    SayFlow(s, e.r, e.text);
  }

  lemma SayRotated(s: System, e: Step, m: nat, base: seq<nat>, k: nat)
    requires e.Say? && MintFree(s.net) && RotatedFlow(s, m, base, k) && Get(s, e.r).send != Derived(Offerer, m)
    ensures RotatedFlow(Apply(s, e), m, base, k)
  {
    var s', fa := Apply(s, e), s.offerer.recv;
    SayFlow(s, e.r, e.text);
    assert ChatsAt(s'.net, Derived(Offerer, m)) == ChatsAt(s.net, Derived(Offerer, m));
    if Get(s, e.r).send == fa && fa in s.net.boxes {
      var acc := Accepted(s.net, m, base, k);
      assert s.offerer.read + (BoxTexts(s.net, fa) + [e.text]) == s.offerer.read + BoxTexts(s.net, fa) + [e.text];
      assert acc + (ChatsAt(s.net, fa) + [e.text]) == acc + ChatsAt(s.net, fa) + [e.text];
    }
    hide BoxTexts, ChatsAt;
  }

  lemma SayKeepsFlow(s: System, e: Step, m: nat, c: nat, first: Inbox, base: seq<nat>, k: nat)
    requires e.Say? && Flow(s, m, c, first, base, k) && MintFree(s.net) && OneCopy(Apply(s, e), m, Offerer, c)
    ensures Flow(Apply(s, e), m, c, first, base, k)
  {
    if Level(s, m) {
      SayKeepsLevel(s, e, m);
    }
    SayKeepsRotation(s, e, m, c, first);
    if Rotated(s, m, c, first) && RotatedFlow(s, m, base, k) {
      RotatedSends(s, m, c, first);
      SayRotated(s, e, m, base, k);
    } else {
      SayDerived(s, e, m, base, k);
      if FreshFlow(s) {
        SayFresh(s, e);
      }
    }
    hide Level, LegOne, LegTwo, Rotated, Apply, DerivedFlow, FreshFlow, RotatedFlow, MintFree, OneCopy;
  }

  lemma RotatedSends(s: System, m: nat, c: nat, first: Inbox)
    requires Rotated(s, m, c, first) && OneCopy(s, m, Offerer, c)
    ensures s.offerer.send.Minted? && s.responder.send.Minted? && forall r :: Get(s, r).send.Minted?
  {}

  // Deliveries.

  /** Before the offerer's last leg: a delivery keeps the flow through the derived inbox. */
  lemma DeliverDerived(s: System, e: Step, m: nat, base: seq<nat>, k: nat)
    requires e.Deliver? && Enabled(s, e) && MintFree(s.net) && DerivedFlow(s, m, base, k)
    requires s.offerer.recv == Derived(Offerer, m)
    requires e.r.Offerer? ==> !Head(s, e.r).Leg?
    requires e.r.Responder? ==> s.responder.recv != Derived(Offerer, m) && Given(s.responder) != Derived(Offerer, m)
    ensures DerivedFlow(Apply(s, e), m, base, k)
  {
    hide Apply, BoxTexts, Texts, MintFree;
    DeliverTexts(s, e);
    var d := Derived(Offerer, m);
    if e.r.Offerer? {
      var f, rest := Head(s, e.r), Texts(s.net.boxes[d][1..]);
      var took := if f.Chat? then [f.text] else [];
      assert s.offerer.read + (took + rest) == s.offerer.read + took + rest;
    }
  }

  lemma DeliverFresh(s: System, e: Step)
    requires e.Deliver? && Enabled(s, e) && MintFree(s.net) && FreshFlow(s)
    requires var fa := s.offerer.awaiting.value.fa; s.offerer.recv != fa && s.responder.recv != fa
    requires s.responder.awaiting.None? && (e.r.Offerer? ==> Quiet(s.offerer, Head(s, e.r)))
    ensures FreshFlow(Apply(s, e))
  {
    DeliverTexts(s, e);
    if e.r.Offerer? {
      QuietDelivery(s, e);
    }
    hide BoxTexts, Apply, Quiet, MintFree;
  }

  /** The inbox minted for a rotation has no history. */
  lemma InitiationFresh(s: System, e: Step, m: nat)
    requires s.offerer.role.Offerer? && SeenBelow(s.offerer) && MintFree(s.net) && ChatsFresh(s.net)
      && s.offerer.own == m
    requires e.Deliver? && e.r == Offerer && Enabled(s, e) && Initiates(s, e, m) && e.a.create
    ensures FreshFlow(Apply(s, e))
  {
    DeliverTexts(s, e);
    HelloInitiates(s, e);
    var fa := Minted(s.net.minted);
    assert fa !in s.net.boxes && fa !in s.net.chats;
    assert BoxTexts(s.net, fa) == [];
    hide BoxTexts, Texts, Apply, QueueAt, Popped;
  }

  lemma LevelFlow(s: System, e: Step, m: nat, base: seq<nat>, k: nat)
    requires Level(s, m) && DerivedFlow(s, m, base, k) && e.Deliver? && Enabled(s, e)
    requires !Head(s, e.r).Leg? && (Head(s, e.r).Hello? ==> Head(s, e.r).gen <= m)
    ensures DerivedFlow(Apply(s, e), m, base, k)
    ensures LegOne(Apply(s, e), m, 1, Minted(s.net.minted)) ==> FreshFlow(Apply(s, e))
  {
    DeliverDerived(s, e, m, base, k);
    LevelDelivers(s, e, m);
    if LegOne(Apply(s, e), m, 1, Minted(s.net.minted)) {
      assert Initiates(s, e, m) && e.a.create;
      InitiationFresh(s, e, m);
    }
    hide LegOne, Apply, Enabled, DerivedFlow, FreshFlow, Base, Legs;
  }

  /** While the offerer waits, with no announcement left, it reads quiet frames until leg two. */
  lemma WaitingReads(s: System, e: Step, m: nat, c: nat, first: Inbox)
    requires LegOne(s, m, c, first) || LegTwo(s, m, c, first)
    requires OneCopy(s, m, Offerer, c) && e.Deliver? && e.r == Offerer && Enabled(s, e) && !Head(s, Offerer).Leg?
    requires Head(s, Offerer).Hello? ==> Head(s, Offerer).gen <= m
    ensures Quiet(s.offerer, Head(s, Offerer))
  {
    assert s.offerer.recv == Derived(Offerer, m) && s.responder.own == m;
    var q := QueueAt(s.net, Derived(Offerer, m));
    assert Copies(q, m) == 0 && Head(s, Offerer) == q[0];
    ViewsSound(q, m);
    assert q[0] in q;
    hide Copies, FirstAbove, FirstLeg;
  }

  lemma WaitingFlow(s: System, e: Step, m: nat, c: nat, first: Inbox, base: seq<nat>, k: nat)
    requires LegOne(s, m, c, first) || LegTwo(s, m, c, first)
    requires OneCopy(s, m, Offerer, c) && DerivedFlow(s, m, base, k) && FreshFlow(s)
    requires e.Deliver? && Enabled(s, e) && (e.r.Offerer? ==> !Head(s, e.r).Leg?)
    requires Head(s, e.r).Hello? ==> Head(s, e.r).gen <= m
    ensures DerivedFlow(Apply(s, e), m, base, k) && FreshFlow(Apply(s, e))
  {
    if e.r.Offerer? {
      WaitingReads(s, e, m, c, first);
    }
    DeliverDerived(s, e, m, base, k);
    DeliverFresh(s, e);
    hide Apply, Enabled, DerivedFlow, FreshFlow, Legs, HellosUpTo, SeenBelow, OneCopy, Quiet;
  }

  /** Handling the last leg leaves an inbox in which no chat is left. */
  lemma LastLegFlow(s: System, e: Step, m: nat, c: nat, first: Inbox, base: seq<nat>, k: nat)
    requires LegTwo(s, m, c, first) && DerivedFlow(s, m, base, k) && FreshFlow(s)
    requires e.Deliver? && e.r == Offerer && Enabled(s, e) && Head(s, Offerer).Leg?
    ensures RotatedFlow(Apply(s, e), m, base, k)
  {
    var s', d, fa := Apply(s, e), Derived(Offerer, m), s.offerer.awaiting.value.fa;
    LegTwoHandled(s, e, m, c, first);
    DeliverTexts(s, e);
    assert BoxTexts(s.net, d) == [] && BoxTexts(s'.net, d) == [];
    assert s'.offerer.recv == fa;
    assert BoxTexts(s'.net, fa) == ChatsAt(s'.net, fa);
    assert s'.offerer.read == Accepted(s'.net, m, base, k);
    hide Texts, BoxTexts, QueueAt, Apply;
  }

  lemma RotatedKeepsFlow(s: System, e: Step, m: nat, c: nat, first: Inbox, base: seq<nat>, k: nat)
    requires Rotated(s, m, c, first) && RotatedFlow(s, m, base, k) && e.Deliver? && Enabled(s, e) && Head(s, e.r).Chat?
    ensures RotatedFlow(Apply(s, e), m, base, k)
  {
    hide Texts, QueueAt, Legs, HellosUpTo, SeenBelow, HandleIncoming;
    var s', fa, f := Apply(s, e), s.offerer.recv, Head(s, e.r);
    QuietDelivery(s, e);
    DeliverTexts(s, e);
    assert BoxTexts(s'.net, Derived(Offerer, m)) == [];
    if e.r.Offerer? {
      var rest := Texts(s.net.boxes[fa][1..]);
      assert s.offerer.read + ([f.text] + rest) == s.offerer.read + [f.text] + rest;
    } else {
      assert BoxTexts(s'.net, fa) == BoxTexts(s.net, fa);
    }
    hide Texts, BoxTexts, QueueAt, Apply;
  }

  lemma FlowDeliver(s: System, e: Step, m: nat, c: nat, first: Inbox, first': Inbox, base: seq<nat>, k: nat)
    requires Flow(s, m, c, first, base, k) && e.Deliver? && Enabled(s, e) && Granted(s, e)
    requires var c' := StartsAfter(s, e, m, c);
      && OneCopy(Apply(s, e), m, Offerer, c')
      && first' == (if c == 0 && Level(s, m) then Minted(s.net.minted) else first)
    ensures Flow(Apply(s, e), m, StartsAfter(s, e, m, c), first', base, k)
  {
    assert Phase(s, m, Offerer, m, c, first) by { hide Level, LegOne, LegTwo, Rotated; }
    HeadKnown(s, e, m, Offerer, m, c, first);
    FlowApart(s, m, c, first, base, k);
    hide Level, LegOne, LegTwo, Rotated, Apply, Enabled, Granted, DerivedFlow, FreshFlow, RotatedFlow;
    hide OneCopy, Initiates;
    if c == 0 && Level(s, m) && DerivedFlow(s, m, base, k) {
      LevelHasNoLeg(s, m);
      LevelIsNotLegTwo(s, m, c, first);
      LevelFlow(s, e, m, base, k);
      LevelDelivers(s, e, m);
    } else {
      RotationDelivers(s, e, m, c, first);
      if Rotated(s, m, c, first) && RotatedFlow(s, m, base, k) {
        RotatedReads(s, e, m, c, first);
        RotatedKeepsFlow(s, e, m, c, first, base, k);
      } else if Head(s, e.r).Leg? && e.r.Offerer? {
        LastLegFlow(s, e, m, c, first, base, k);
      } else {
        WaitingFlow(s, e, m, c, first, base, k);
      }
    }
  }

  lemma RotatedReads(s: System, e: Step, m: nat, c: nat, first: Inbox)
    requires Rotated(s, m, c, first) && e.Deliver? && Enabled(s, e)
    ensures Head(s, e.r).Chat?
  {
    var p, f := Get(s, e.r), Head(s, e.r);
    assert In(s.net, p.recv, f);
    assert HelloOk(p.recv, f, m) && LegAt(p.recv, f, m + 1, None);
  }

  // Whole rotations.

  lemma FlowApart(s: System, m: nat, c: nat, first: Inbox, base: seq<nat>, k: nat)
    requires Flow(s, m, c, first, base, k)
    ensures !Apart(s, m, Offerer)
  {
    hide In, Legs, HellosUpTo, SeenBelow, DerivedFlow, FreshFlow, RotatedFlow, CopiesAt, FirstLeg, QueueAt, MintFree;
  }

  lemma FlowPhase(s: System, m: nat, c: nat, first: Inbox, base: seq<nat>, k: nat)
    requires Flow(s, m, c, first, base, k)
    ensures Phase(s, m, Offerer, m, c, first) && OneCopy(s, m, Offerer, c)
    ensures s.offerer.recv in s.net.boxes && s.responder.recv in s.net.boxes && s.responder.own == m && MintFree(s.net)
  {
    hide In, Legs, HellosUpTo, SeenBelow, DerivedFlow, FreshFlow, RotatedFlow, CopiesAt, FirstLeg, QueueAt, MintFree;
  }

  lemma FlowStep(s: System, e: Step, m: nat, c: nat, first: Inbox, base: seq<nat>, k: nat) returns (first': Inbox)
    requires Flow(s, m, c, first, base, k) && Enabled(s, e) && Calm(s, e, m, Offerer)
    ensures Flow(Apply(s, e), m, StartsAfter(s, e, m, c), first', base, k)
  {
    FlowPhase(s, m, c, first, base, k);
    var x := CalmStep(s, e, m, Offerer, m, c, first);
    CopyStep(s, e, m, Offerer, m, c, first, x);
    first' := if e.Deliver? && c == 0 && Level(s, m) then Minted(s.net.minted) else first;
    hide Flow, Phase, Apply, Granted, OneCopy, Level;
    match e
    case Deliver(_, _) => FlowDeliver(s, e, m, c, first, first', base, k);
    case Say(_, _) => SayKeepsFlow(s, e, m, c, first, base, k);
    case Attempt(_, _) =>
    case Lose(id) => LoseNothing(s, id);
  }

  lemma {:induction false} FlowRun(s: System, es: seq<Step>, m: nat, c: nat, first: Inbox, base: seq<nat>, k: nat)
    returns (first': Inbox)
    requires Flow(s, m, c, first, base, k) && Valid(s, es) && AllCalm(s, es, m, Offerer)
    ensures Flow(Exec(s, es), m, Starts(s, es, m, c), first', base, k)
    decreases |es|
  {
    hide Flow, Apply, Enabled, Calm, StartsAfter;
    first' := first;
    if es != [] {
      first' := FlowStep(s, es[0], m, c, first, base, k);
      first' := FlowRun(Apply(s, es[0]), es[1..], m, StartsAfter(s, es[0], m, c), first', base, k);
    }
  }

  /**
   The drained rotation: however a calm run from level generations with at most one announcement left
   interleaves, what the offerer has read, with what is still queued for it, is what it had at the start,
   then the chat accepted at its derived inbox since, then (once it has moved) the chat accepted at its fresh
   inbox, in that order. It moves only with no chat left in the derived inbox, and then both routes are crossed.
   */
  lemma RotationDrains(s: System, es: seq<Step>, m: nat)
    requires Level(s, m) && ChatsFresh(s.net) && CopiesAt(s.net, Derived(Offerer, m), m) <= 1
    requires Valid(s, es) && AllCalm(s, es, m, Offerer)
    ensures var t, d := Exec(s, es), Derived(Offerer, m);
      var k := |ChatsAt(s.net, d)|;
      var all := Accepted(t.net, m, s.offerer.read + BoxTexts(s.net, d), k);
      if t.offerer.recv == d then t.offerer.read + BoxTexts(t.net, d) == all
      else
        && BoxTexts(t.net, d) == [] && Matched(t, m)
        && t.offerer.read + BoxTexts(t.net, t.offerer.recv) == all + ChatsAt(t.net, t.offerer.recv)
  {
    var d := Derived(Offerer, m);
    var base, k := s.offerer.read + BoxTexts(s.net, d), |ChatsAt(s.net, d)|;
    assert ChatsAt(s.net, d)[k..] == [];
    assert OneCopy(s, m, Offerer, 0) by { hide CopiesAt; }
    assert Flow(s, m, 0, d, base, k) by { hide Level, BoxTexts, ChatsFresh, OneCopy; }
    var first := FlowRun(s, es, m, 0, d, base, k);
    FlowMeans(Exec(s, es), m, Starts(s, es, m, 0), first, base, k);
    hide Flow, Exec, Level;
  }

  lemma FlowMeans(s: System, m: nat, c: nat, first: Inbox, base: seq<nat>, k: nat)
    requires Flow(s, m, c, first, base, k)
    ensures var d := Derived(Offerer, m);
      if s.offerer.recv == d then s.offerer.read + BoxTexts(s.net, d) == Accepted(s.net, m, base, k)
      else
        && BoxTexts(s.net, d) == [] && Matched(s, m)
        && s.offerer.read + BoxTexts(s.net, s.offerer.recv) == Accepted(s.net, m, base, k)
          + ChatsAt(s.net, s.offerer.recv)
  {
    hide BoxTexts, In, Legs, HellosUpTo, SeenBelow, CopiesAt, FirstLeg, QueueAt, MintFree, ChatsFresh;
  }

  predicate OnFreshInboxes(t: System, m: nat) {
    && t.offerer.own == t.responder.own == m && t.offerer.recv.Minted? && t.responder.recv.Minted?
    && t.offerer.recv in t.net.boxes && t.responder.recv in t.net.boxes && t.offerer.send == t.responder.recv
  }

  /**
   From level generations, the offerer reads an unseen announcement and its leg is deposited. After any calm
   run with nothing left to read both sides are on fresh live inboxes; the routes are crossed if and only if
   the offerer started no other rotation, that is, read no other unseen announcement, before leg two.
   */
  lemma RotationCompletes(s: System, a: Answers, es: seq<Step>, m: nat)
    requires Level(s, m) && Enabled(s, Deliver(Offerer, a)) && a.create && a.deposit
      && Initiates(s, Deliver(Offerer, a), m)
    requires var s1 := Apply(s, Deliver(Offerer, a)); Valid(s1, es) && AllCalm(s1, es, m, Offerer)
    ensures var s1 := Apply(s, Deliver(Offerer, a)); var t := Exec(s1, es);
      Drained(t) ==> OnFreshInboxes(t, m) && (Matched(t, m) <==> Starts(s1, es, m, 1) == 1)
  {
    var s1 := Apply(s, Deliver(Offerer, a));
    LevelInitiates(s, Deliver(Offerer, a), m);
    var first := Minted(s.net.minted);
    StartsGrows(s1, es, m, 1);
    hide Exec, Level, LegOne, LegTwo, Rotated, Apply, Enabled, Valid, Drained, Initiates, Apart;
    var first' := RotatingRun(s1, es, m, 1, first);
    RotatingMeans(Exec(s1, es), m, Starts(s1, es, m, 1), first');
  }

  lemma {:induction false} StartsGrows(s: System, es: seq<Step>, m: nat, c: nat)
    requires Valid(s, es)
    ensures Starts(s, es, m, c) >= c
    decreases |es|
  {
    if es != [] {
      StartsGrows(Apply(s, es[0]), es[1..], m, StartsAfter(s, es[0], m, c));
    }
  }

  ghost predicate Rotating(s: System, m: nat, c: nat, first: Inbox) {
    LegOne(s, m, c, first) || LegTwo(s, m, c, first) || Rotated(s, m, c, first)
  }

  lemma RotatingStep(s: System, e: Step, m: nat, c: nat, first: Inbox)
    requires Rotating(s, m, c, first) && Enabled(s, e) && Calm(s, e, m, Offerer)
    ensures Rotating(Apply(s, e), m, StartsAfter(s, e, m, c), first)
  {
    assert Phase(s, m, Offerer, m, c, first) by { hide LegOne, LegTwo, Rotated, Apart, Level; }
    RotatingLive(s, m, c, first);
    match e
    case Deliver(_, _) =>
      HeadKnown(s, e, m, Offerer, m, c, first);
      assert !Apart(s, m, Offerer) by { hide Base, Legs, CopiesAt, Settled; }
      hide LegOne, LegTwo, Rotated, Apply, Enabled, Granted, Phase, Initiates, Apart;
      RotationDelivers(s, e, m, c, first);
    case Say(_, _) =>
      hide LegOne, LegTwo, Rotated, Apply, Phase;
      SayKeepsRotation(s, e, m, c, first);
    case Attempt(_, _) =>
    case Lose(id) =>
      hide LegOne, LegTwo, Rotated, Phase;
      LoseNothing(s, id);
  }

  lemma RotatingLive(s: System, m: nat, c: nat, first: Inbox)
    requires Rotating(s, m, c, first)
    ensures s.offerer.recv in s.net.boxes && s.responder.recv in s.net.boxes && s.responder.own == m
  {
    hide Base, Legs, FirstLeg, QueueAt;
  }

  lemma {:induction false} RotatingRun(s: System, es: seq<Step>, m: nat, c: nat, first: Inbox) returns (first': Inbox)
    requires Rotating(s, m, c, first) && Valid(s, es) && AllCalm(s, es, m, Offerer)
    ensures Rotating(Exec(s, es), m, Starts(s, es, m, c), first')
    decreases |es|
  {
    hide Rotating, Apply, Enabled, Calm, StartsAfter;
    first' := first;
    if es != [] {
      RotatingStep(s, es[0], m, c, first);
      first' := RotatingRun(Apply(s, es[0]), es[1..], m, StartsAfter(s, es[0], m, c), first);
    }
  }

  lemma RotatingMeans(t: System, m: nat, c: nat, first: Inbox)
    requires Rotating(t, m, c, first)
    ensures Drained(t) ==> OnFreshInboxes(t, m) && (Matched(t, m) <==> c == 1)
  {
    assert Get(t, Offerer) == t.offerer && Get(t, Responder) == t.responder;
    hide In, Legs, HellosUpTo, SeenBelow, MintFree;
  }

  // What breaks the hand-over.

  /** The other direction loses exactly the chat queued behind leg one. */
  lemma ChatBehindLegOne(s: System, e: Step)
    requires e.Deliver? && e.r == Responder && Enabled(s, e) && MintFree(s.net)
    requires Head(s, Responder).Leg? && s.responder.awaiting.None? && e.a.create && e.a.delete
    requires s.responder.recv != Derived(Offerer, s.responder.own) && s.responder.role.Responder?
    ensures var s' := Apply(s, e);
      && s'.responder.read == s.responder.read && s.responder.recv !in s'.net.boxes
      && (s.responder.read + BoxTexts(s.net, s.responder.recv) ==
          s'.responder.read + BoxTexts(s'.net, s'.responder.recv)
          <==> Texts(s.net.boxes[s.responder.recv][1..]) == [])
  {
    DeliverTexts(s, e);
    var fb := Minted(s.net.minted);
    assert fb !in s.net.boxes;
    assert Apply(s, e).responder.recv == fb;
    assert BoxTexts(s.net, fb) == [];
    hide Texts, BoxTexts;
  }

  /**
   The responder's half: whatever the relay refuses, its send route has moved; the offerer's move can
   follow if and only if the fresh inbox was granted and the reply deposited.
   */
  lemma ReplyNeedsGrants(s: System, e: Step, m: nat, c: nat, first: Inbox)
    requires LegOne(s, m, c, first) && e.Deliver? && e.r == Responder && Enabled(s, e) && Head(s, Responder).Leg?
    ensures var s' := Apply(s, e);
      && s'.responder.send == first != s'.offerer.recv
      && ((exists x :: In(s'.net, s'.offerer.recv, Leg(x))) <==> e.a.create && e.a.deposit)
      && (e.a.create && e.a.deposit ==> In(s'.net, s'.offerer.recv, Leg(s'.responder.recv)))
  {
    var p, net, d, s' := s.responder, Popped(s.net, s.responder.recv), Derived(Offerer, m), Apply(s, e);
    PopDid(s.net, p.recv);
    RotationDid(net, d);
    DropDid(Mint(net), p.recv);
    DropDid(Post(Mint(net), d, Leg(Minted(net.minted))), p.recv);
    assert Head(s, Responder).inbox == first;
    assert forall g :: In(s.net, d, g) ==> LegAt(d, g, m, Some(p.recv));
    assert QueueAt(s'.net, d) == QueueAt(s.net, d)
      + (if e.a.create && e.a.deposit then [Leg(s'.responder.recv)] else []);
    assert s'.offerer.recv == d;
    hide Popped, Mint, Post, Drop, FirstLeg, HellosUpTo, Apply, QueueAt;
    if e.a.create && e.a.deposit {
      assert In(s'.net, d, Leg(s'.responder.recv));
    } else {
      forall x
        ensures !In(s'.net, d, Leg(x))
      {
        assert In(s'.net, d, Leg(x)) ==> In(s.net, d, Leg(x)) && LegAt(d, Leg(x), m, Some(p.recv));
      }
    }
  }

  // Which derived inboxes a rotation leaves on the relay.

  /** The step at which `r` reads its leg at generation `m`. */
  predicate TakesLeg(s: System, e: Step, m: nat, r: Role)
    requires Enabled(s, e)
  {
    e.Deliver? && e.r == r && Head(s, r).Leg? && Get(s, r).own == m
  }

  /** Whether `r` was refused the deletion of its derived inbox when it last read a leg at `m`. */
  function Undeleted(s: System, es: seq<Step>, m: nat, r: Role, before: bool): bool
    requires Valid(s, es)
    decreases |es|
  {
    if es == [] then before
    else Undeleted(Apply(s, es[0]), es[1..], m, r, if TakesLeg(s, es[0], m, r) then !es[0].a.delete else before)
  }

  /** Once `r` is on a fresh inbox, its derived one is left exactly if `left`. */
  predicate LeftIff(s: System, m: nat, r: Role, left: bool) {
    Get(s, r).recv.Minted? ==> (Derived(r, m) in s.net.boxes <==> left)
  }

  /** Reading a leg of the rotation deletes the reader's derived inbox if and only if the relay grants it. */
  lemma LegClears(s: System, e: Step, m: nat, c: nat, first: Inbox)
    requires LegOne(s, m, c, first) || LegTwo(s, m, c, first)
    requires e.Deliver? && Enabled(s, e) && Granted(s, e) && Head(s, e.r).Leg?
    requires (LegOne(s, m, c, first) && e.r.Responder?) || (LegTwo(s, m, c, first) && e.r.Offerer?)
    ensures var s' := Apply(s, e);
      && Get(s, e.r).recv == Derived(e.r, m) && (Derived(e.r, m) in s'.net.boxes <==> !e.a.delete)
      && (forall b :: b != Derived(e.r, m) && b in s.net.boxes ==> b in s'.net.boxes)
      && (forall b :: b in s'.net.boxes && b !in s.net.boxes ==> b.Minted?)
  {
    var p, net := Get(s, e.r), Popped(s.net, Get(s, e.r).recv);
    PopDid(s.net, p.recv);
    LegDeletes(p, net, Head(s, e.r).inbox, e.a);
    LegBoxes(p, net, Head(s, e.r).inbox, e.a);
    hide HandleLeg, Popped, FirstLeg, QueueAt, Legs, HellosUpTo, SeenBelow, In;
  }

  lemma LegBoxes(p: Party, net: Net, inbox: Inbox, a: Answers)
    ensures forall b :: b in HandleLeg(p, net, inbox, a).net.boxes && b !in net.boxes ==> b.Minted?
  {}

  /** Any other frame of level sides makes no derived inbox and deletes none. */
  lemma OtherBoxes(s: System, e: Step, m: nat)
    requires e.Deliver? && Enabled(s, e) && !Head(s, e.r).Leg? && Get(s, e.r).own == m
    requires Head(s, e.r).Hello? ==> Head(s, e.r).gen <= m
    ensures forall b: Inbox :: b.Derived? ==> (b in Apply(s, e).net.boxes <==> b in s.net.boxes)
    ensures forall r :: Get(Apply(s, e), r).recv == Get(s, r).recv
  {
    hide MarkSeen;
  }

  lemma JoinedLeft(s: System, e: Step, m: nat, hi: Role, c: nat, first: Inbox, r: Role, left: bool)
    requires Joined(s, m, c, first) && Enabled(s, e) && Calm(s, e, m, hi) && LeftIff(s, m, r, left)
    ensures LeftIff(Apply(s, e), m, r, if TakesLeg(s, e, m, r) then !e.a.delete else left)
  {
    JoinedLive(s, m, c, first);
    match e
    case Deliver(x, _) =>
      PhaseJoined(s, m, hi, m, c, first);
      HeadKnown(s, e, m, hi, m, c, first);
      JoinedIsNotApart(s, m, hi);
      hide Joined, Phase, Apart, LegOne, LegTwo, Apply;
      if Head(s, x).Leg? {
        LegClears(s, e, m, c, first);
        DeliverLeavesOther(s, e);
      } else {
        OtherBoxes(s, e, m);
      }
    case Say(_, _) =>
      SayDid(s, e.r, e.text);
      hide Joined, Apply, QueueAt;
    case Attempt(_, _) =>
    case Lose(id) => LoseNothing(s, id);
  }

  lemma JoinedIsNotApart(s: System, m: nat, hi: Role)
    requires Get(s, Other(hi)).own == m
    ensures !Apart(s, m, hi)
  {}

  lemma DeliverLeavesOther(s: System, e: Step)
    requires e.Deliver? && Enabled(s, e)
    ensures Get(Apply(s, e), Other(e.r)) == Get(s, Other(e.r))
  {
    hide HandleIncoming;
  }

  /** Before the generations are level there is nothing to say, and coming level starts on derived inboxes. */
  ghost predicate LeftOk(s: System, m: nat, hi: Role, r: Role, left: bool) {
    Apart(s, m, hi) || LeftIff(s, m, r, left)
  }

  lemma LeftStep(s: System, e: Step, m: nat, hi: Role, g: nat, c: nat, first: Inbox, r: Role, left: bool)
    requires Phase(s, m, hi, g, c, first) && Enabled(s, e) && Calm(s, e, m, hi) && LeftOk(s, m, hi, r, left)
    ensures LeftOk(Apply(s, e), m, hi, r, if TakesLeg(s, e, m, r) then !e.a.delete else left)
  {
    PhaseJoined(s, m, hi, g, c, first);
    if e.Deliver? {
      PhaseDelivery(s, e, m, hi, g, c, first);
    }
    if c == 0 && Apart(s, m, hi) && Destination(s, m, Other(hi)) == g {
      ApartOwn(s, m, hi);
      hide Apart, Joined, Phase, Apply, Calm, Destination, Astray, SpentAt, LegOne, LegTwo, NetWeight, LeftIff;
      ApartStep(s, e, m, hi);
      if Level(Apply(s, e), m) {
        LevelOnDerived(Apply(s, e), m, r);
      }
    } else {
      assert Get(s, Other(hi)).own == m by { JoinedLive(s, m, c, first); }
      JoinedIsNotApart(s, m, hi);
      hide Apart, Joined, Phase, Apply, Calm, LeftIff, TakesLeg, LegOne, LegTwo, NetWeight;
      JoinedLeft(s, e, m, hi, c, first, r, left);
    }
  }

  lemma LevelOnDerived(s: System, m: nat, r: Role)
    requires Level(s, m)
    ensures forall left :: LeftIff(s, m, r, left)
  {
    hide Base, Legs;
  }

  lemma {:induction false} LeftRun(
    s: System, es: seq<Step>, m: nat, hi: Role, g: nat, c: nat, first: Inbox, r: Role, left: bool)
    requires Phase(s, m, hi, g, c, first) && Valid(s, es) && AllCalm(s, es, m, hi) && LeftOk(s, m, hi, r, left)
    ensures LeftOk(Exec(s, es), m, hi, r, Undeleted(s, es, m, r, left))
    decreases |es|
  {
    hide Phase, Apply, Calm, LeftOk, StartsAfter, Potential, Stranded, SpentAt, Enabled;
    if es != [] {
      var left' := if TakesLeg(s, es[0], m, r) then !es[0].a.delete else left;
      LeftStep(s, es[0], m, hi, g, c, first, r, left);
      var first' := CalmStep(s, es[0], m, hi, g, c, first);
      LeftRun(Apply(s, es[0]), es[1..], m, hi, g, StartsAfter(s, es[0], m, c), first', r, left');
    }
  }

  /**
   What is left on the relay. From one side ahead, or from level generations, every calm run that leaves a side
   on a fresh inbox at `m` leaves its derived inbox of `m` behind if and only if its deletion was refused; so a
   late deposit there is refused exactly when the deletion was granted.
   */
  lemma RotationCleansUp(s: System, es: seq<Step>, m: nat, hi: Role, r: Role, text: nat)
    requires (Apart(s, m, hi) || Level(s, m)) && Valid(s, es) && AllCalm(s, es, m, hi)
    ensures var t := Exec(s, es); var left := Undeleted(s, es, m, r, false);
      t.offerer.own == t.responder.own == m && Get(t, r).recv.Minted? ==>
        && (Derived(r, m) in t.net.boxes <==> left)
        && (Post(t.net, Derived(r, m), Chat(text)) == t.net <==> !left)
  {
    var g, t := if Level(s, m) then m else Destination(s, m, Other(hi)), Exec(s, es);
    if Level(s, m) {
      LevelOnDerived(s, m, r);
    }
    assert Phase(s, m, hi, g, 0, s.offerer.recv) by { hide Apart, Level, Destination; }
    hide Apart, Level, Destination, Exec, Undeleted, Phase;
    LeftRun(s, es, m, hi, g, 0, s.offerer.recv, r, false);
    if t.offerer.own == t.responder.own == m {
      JoinedIsNotApart(t, m, hi);
    }
    PostMoves(t.net, Derived(r, m), text);
  }

  lemma PostMoves(net: Net, id: Inbox, text: nat)
    ensures Post(net, id, Chat(text)) == net <==> id !in net.boxes
  {
    if id in net.boxes {
      assert |Post(net, id, Chat(text)).boxes[id]| == |net.boxes[id]| + 1;
    }
  }

  // A flush pass that read its route before the hand-over.

  lemma PostKeepsRotated(s: System, id: Inbox, text: nat, m: nat, c: nat, first: Inbox)
    requires Rotated(s, m, c, first)
    ensures Rotated(s.(net := Post(s.net, id, Chat(text))), m, c, first)
  {
    var net' := Post(s.net, id, Chat(text));
    assert forall b, f :: In(net', b, f) ==> In(s.net, b, f) || f.Chat?;
    hide In, Post;
    assert net'.boxes.Keys == s.net.boxes.Keys && net'.minted == s.net.minted by { PostKeys(s.net, id, text); }
  }

  lemma PostKeys(net: Net, id: Inbox, text: nat)
    ensures var net' := Post(net, id, Chat(text)); net'.boxes.Keys == net.boxes.Keys && net'.minted == net.minted
  {}

  /** With both sides on fresh inboxes nobody reads or writes a derived one. */
  lemma LeftBehind(s: System, e: Step, m: nat, c: nat, first: Inbox, d: Inbox)
    requires Rotated(s, m, c, first) && Enabled(s, e) && Calm(s, e, m, Offerer) && d.Derived?
    ensures Rotated(Apply(s, e), m, c, first) && QueueAt(Apply(s, e).net, d) == QueueAt(s.net, d)
  {
    match e
    case Deliver(r, _) =>
      RotatedReads(s, e, m, c, first);
      QuietDelivery(s, e);
      QuietKeepsRotation(s, e, m, c, first);
      PopDid(s.net, Get(s, r).recv);
      hide Apply, In, QueueAt, Legs, Popped;
    case Say(r, text) =>
      SayKeepsRotation(s, e, m, c, first);
      SayDid(s, r, text);
      hide Apply, In, QueueAt, Legs;
    case Attempt(_, _) =>
    case Lose(id) => LoseNothing(s, id);
  }

  lemma {:induction false} LeftBehindRun(s: System, es: seq<Step>, m: nat, c: nat, first: Inbox, d: Inbox)
    requires Rotated(s, m, c, first) && Valid(s, es) && AllCalm(s, es, m, Offerer) && d.Derived?
    ensures Rotated(Exec(s, es), m, c, first) && QueueAt(Exec(s, es).net, d) == QueueAt(s.net, d)
    decreases |es|
  {
    hide Rotated, Apply, Enabled, Calm, QueueAt;
    if es != [] {
      LeftBehind(s, es[0], m, c, first, d);
      LeftBehindRun(Apply(s, es[0]), es[1..], m, c, first, d);
    }
  }

  /**
   Chat deposited after the hand-over to a derived inbox that was the route before it is accepted if and only
   if that inbox still exists, and then no calm run ever reads it; otherwise nothing changes and it stays pending.
   */
  lemma LateDeposit(s: System, d: Inbox, text: nat, es: seq<Step>, m: nat, c: nat, first: Inbox)
    requires Rotated(s, m, c, first) && d.Derived?
    requires var s' := s.(net := Post(s.net, d, Chat(text))); Valid(s', es) && AllCalm(s', es, m, Offerer)
    ensures var s' := s.(net := Post(s.net, d, Chat(text))); var t := Exec(s', es);
      && (ChatsAt(s'.net, d) == ChatsAt(s.net, d) + [text] <==> d in s.net.boxes)
      && (d in s.net.boxes ==> QueueAt(t.net, d) == QueueAt(s.net, d) + [Chat(text)])
      && (d !in s.net.boxes ==> s' == s)
      && t.offerer.recv != d && t.responder.recv != d
  {
    var s' := s.(net := Post(s.net, d, Chat(text)));
    PostKeepsRotated(s, d, text, m, c, first);
    LeftBehindRun(s', es, m, c, first, d);
    hide Exec, Valid, AllCalm, Base, Legs;
  }
}
