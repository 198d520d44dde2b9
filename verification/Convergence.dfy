/**
 Convergence and rotation. One side is at generation `m` and listens there; the other is below, wherever it
 is: on a derived inbox, on an inbox of pairing or rotation, on a lost one, or about to read a rotation leg
 that takes it away. However deliveries, chat, the lower side's attempts and the loss of the inbox it is
 leaving interleave, what is queued at the start and which attempts are made decide where it ends, and that
 and how often the offerer starts a rotation decide whether the routes end crossed.
 */
module Convergence {
  import opened Bytes
  import opened Sums
  import opened Recovery
  import opened Mail
  import opened Weights

  // The runs considered.

  /**
   The grants a delivery's conclusion needs: the own inbox of an adoption, the fresh inbox and reply of an
   answered leg.
   */
  predicate Granted(s: System, e: Step)
    requires Enabled(s, e)
  {
    e.Deliver? ==>
      var p, f := Get(s, e.r), Head(s, e.r);
      && (f.Hello? && f.gen > p.own ==> e.a.ownPut)
      && (f.Leg? && p.awaiting.None? ==> e.a.create && e.a.deposit)
  }

  /** Below `m` and not on a live derived inbox: on the inbox of pairing or of an earlier rotation, or on a lost one. */
  predicate Elsewhere(s: System, m: nat, lo: Role) {
    var l := Get(s, lo);
    l.own < m && (l.recv !in s.net.boxes || !l.recv.Derived?)
  }

  /** No process dies, no attempt is cut off, and no inbox is lost but the one the lower side is leaving. */
  predicate Calm(s: System, e: Step, m: nat, hi: Role)
    requires Enabled(s, e)
  {
    match e
    case Deliver(_, _) => Granted(s, e)
    case Say(_, _) => true
    case Attempt(r, _) => r == Other(hi)
    case Lose(id) => id !in s.net.boxes || (Elsewhere(s, m, Other(hi)) && id == Get(s, Other(hi)).recv)
    case CutAttempt(_, _, _, _) => false
    case Restart(_) => false
  }

  predicate AllCalm(s: System, es: seq<Step>, m: nat, hi: Role)
    requires Valid(s, es)
    decreases |es|
  {
    es == [] || (Calm(s, es[0], m, hi) && AllCalm(Apply(s, es[0]), es[1..], m, hi))
  }

  /** The offerer reads an unseen hello of its own generation. */
  predicate Initiates(s: System, e: Step, m: nat)
    requires Enabled(s, e)
  {
    e.Deliver? && e.r.Offerer? && Head(s, Offerer).Hello? && Head(s, Offerer).gen == m == s.offerer.own
    && (m, Head(s, Offerer).nonce) !in s.offerer.seen
  }

  /** Rotations started, counted from the first whose leg was deposited. */
  function StartsAfter(s: System, e: Step, m: nat, c: nat): nat
    requires Enabled(s, e)
  {
    if Initiates(s, e, m) && e.a.create && (e.a.deposit || c > 0) then c + 1 else c
  }

  function Starts(s: System, es: seq<Step>, m: nat, c: nat): nat
    requires Valid(s, es)
    decreases |es|
  {
    if es == [] then c else Starts(Apply(s, es[0]), es[1..], m, StartsAfter(s, es[0], m, c))
  }

  // Where the lower side is, and where what is queued for it leads.

  /** Not on a live derived inbox, or on one in which a leg stands before any higher announcement. */
  predicate Astray(s: System, lo: Role) {
    var l := Get(s, lo);
    l.recv !in s.net.boxes || !l.recv.Derived? || LegFirst(QueueAt(s.net, l.recv), l.own)
  }

  /** Where announcements take a side at `own` that reads `at`. */
  function Leads(net: Net, lo: Role, at: Inbox, own: nat, m: nat): nat {
    match FirstAbove(QueueAt(net, at), own)
    case None => own
    case Some(g) => Reach(net, lo, g, m)
  }

  /** Where the lower side ends: from the inbox it reads, or if astray from that of its next attempt. */
  function Destination(s: System, m: nat, lo: Role): nat {
    var l := Get(s, lo);
    if Astray(s, lo) then Reach(s.net, lo, l.own + 1, m) else Leads(s.net, lo, l.recv, l.own, m)
  }

  /** Exhausted once the frames before the first leg are read; each new hello is contact. */
  predicate Spent(own: nat, peer: nat, cycles: nat, seen: seq<(nat, nat)>, q: seq<Frame>)
    decreases |q|
  {
    if q == [] || q[0].Leg? then cycles >= PROBE_CYCLES || AbsDiff(own, peer) >= WINDOW
    else if q[0].Hello? && (q[0].gen, q[0].nonce) !in seen then
      Spent(own, if q[0].gen > peer then q[0].gen else peer, 0, MarkSeen(seen, q[0].gen, q[0].nonce), q[1..])
    else Spent(own, peer, cycles, seen, q[1..])
  }

  predicate SpentAt(s: System, lo: Role) {
    var l := Get(s, lo);
    Spent(l.own, l.peer, l.cycles, l.seen, QueueAt(s.net, l.recv))
  }

  /** An attempt of `lo` whose own inbox the relay grants. */
  predicate Served(e: Step, lo: Role) { e.Attempt? && e.r == lo && e.a.ownPut }

  predicate AnyServed(es: seq<Step>, lo: Role) { es != [] && (Served(es[0], lo) || AnyServed(es[1..], lo)) }

  /** The lower side comes back: it is not exhausted by then, and one of its attempts is granted. */
  predicate Returns(s: System, es: seq<Step>, lo: Role) { !SpentAt(s, lo) && AnyServed(es, lo) }

  /** What decides, read off the start and the steps. */
  predicate Arrives(s: System, es: seq<Step>, m: nat, lo: Role) {
    Destination(s, m, lo) == m && (Astray(s, lo) ==> Returns(s, es, lo))
  }

  // The phases of a calm run at target generation `m`.

  predicate StaleInbox(b: Inbox, m: nat) { b.Derived? && b.gen < m }

  predicate LegAt(b: Inbox, f: Frame, m: nat, at: Option<Inbox>) { f.Leg? ==> StaleInbox(b, m) || Some(b) == at }

  /** Every queued leg lies in an inbox of a generation below `m`, or at `at`. */
  ghost predicate Legs(net: Net, m: nat, at: Option<Inbox>) {
    forall b, f :: In(net, b, f) ==> LegAt(b, f, m, at)
  }

  /** Whatever hello a party remembers, its own generation has caught up with it. */
  predicate SeenBelow(p: Party) { forall x :: x in p.seen ==> x.0 <= p.own }

  predicate RoutedAt(p: Party, g: nat) {
    p.own == g && p.recv == Derived(p.role, g) && p.send == Derived(Other(p.role), g)
  }

  /** A derived inbox a party reads, or will delete when its rotation ends, is one of a generation it has reached. */
  predicate Settled(p: Party) {
    && (p.recv.Derived? ==> p.recv.owner == p.role && p.recv.gen <= p.own)
    && (p.awaiting.Some? ==>
          var w := p.awaiting.value;
          w.fa.Minted? && w.derived.Derived? && w.derived.owner == p.role && w.derived.gen <= p.own)
  }

  ghost predicate Base(s: System, m: nat) {
    && s.offerer.role.Offerer? && s.responder.role.Responder? && s.responder.awaiting.None?
    && SeenBelow(s.offerer) && SeenBelow(s.responder)
    && HellosUpTo(s.net, m) && MintFree(s.net) && m <= U32_MAX
  }

  /**
   Phase 1: one side is at `m`, the other below; no leg lies in an inbox of a generation the lower side has
   not reached, and an offerer ahead has no announcement of `m` to read yet.
   */
  ghost predicate Apart(s: System, m: nat, hi: Role) {
    var h, l := Get(s, hi), Get(s, Other(hi));
    && Base(s, m) && Settled(l) && Legs(s.net, l.own + 1, None)
    && RoutedAt(h, m) && h.recv in s.net.boxes && l.own < m
    && (hi.Offerer? ==> CopiesAt(s.net, Derived(Offerer, m), m) == 0)
  }

  /** Phase 2: both at `m`, routes crossed over the derived inboxes. */
  ghost predicate Level(s: System, m: nat) {
    && Base(s, m) && Legs(s.net, m, None)
    && RoutedAt(s.offerer, m) && s.offerer.recv in s.net.boxes
    && RoutedAt(s.responder, m) && s.responder.recv in s.net.boxes
  }

  /** The offerer has started `c` rotations, `first` announced by the first; it will move to the last. */
  ghost predicate OffererWaits(s: System, m: nat, c: nat, first: Inbox) {
    && Base(s, m) && s.responder.own == m
    && RoutedAt(s.offerer, m) && s.offerer.recv in s.net.boxes
    && s.offerer.awaiting.Some? && s.offerer.awaiting.value.derived == s.offerer.recv
    && s.offerer.awaiting.value.fa.Minted? && s.offerer.awaiting.value.fa in s.net.boxes
    && first.Minted? && first.n < s.net.minted
    && c >= 1 && (first == s.offerer.awaiting.value.fa <==> c == 1)
  }

  /** Phase 3: the offerer waits, its first leg is the first in the responder's inbox. */
  ghost predicate LegOne(s: System, m: nat, c: nat, first: Inbox) {
    && OffererWaits(s, m, c, first)
    && RoutedAt(s.responder, m) && s.responder.recv in s.net.boxes
    && Legs(s.net, m, Some(s.responder.recv))
    && FirstLeg(QueueAt(s.net, s.responder.recv)) == Some(first)
  }

  /** Phase 4: the responder is on its fresh inbox, leg two is the last thing in the offerer's derived one. */
  ghost predicate LegTwo(s: System, m: nat, c: nat, first: Inbox) {
    && OffererWaits(s, m, c, first)
    && s.responder.recv.Minted? && s.responder.recv in s.net.boxes && s.responder.send == first
    && s.responder.recv != s.offerer.awaiting.value.fa
    && Legs(s.net, m + 1, Some(s.offerer.recv))
    && var q := QueueAt(s.net, s.offerer.recv);
      q != [] && q[|q| - 1] == Leg(s.responder.recv) && forall i :: 0 <= i < |q| - 1 ==> !q[i].Leg?
  }

  /** Phase 5: both on fresh inboxes; the responder sends to the first announced, the offerer reads the last. */
  ghost predicate Rotated(s: System, m: nat, c: nat, first: Inbox) {
    && Base(s, m) && s.offerer.own == s.responder.own == m
    && s.offerer.recv.Minted? && s.offerer.recv in s.net.boxes
    && s.responder.recv.Minted? && s.responder.recv in s.net.boxes && s.offerer.recv != s.responder.recv
    && s.offerer.send == s.responder.recv && s.responder.send == first && first.Minted?
    && c >= 1 && (first == s.offerer.recv <==> c == 1)
    && Legs(s.net, m + 1, None)
  }

  ghost predicate Phase(s: System, m: nat, hi: Role, g: nat, c: nat, first: Inbox) {
    || (c == 0 && Apart(s, m, hi) && Destination(s, m, Other(hi)) == g)
    || (g == m && c == 0 && Level(s, m))
    || (g == m && (LegOne(s, m, c, first) || LegTwo(s, m, c, first) || Rotated(s, m, c, first)))
  }

  // Views of the queues under steps that add no hello.

  predicate Appended(q: seq<Frame>, q': seq<Frame>) {
    q' == q || (|q'| == |q| + 1 && q'[..|q|] == q && !q'[|q|].Hello?)
  }

  lemma NoNewHello(net: Net, net': Net)
    requires forall b :: Appended(QueueAt(net, b), QueueAt(net', b))
    ensures forall lo: Role, k: nat :: SameAbove(net, net', lo, k)
    ensures forall b, g: nat :: CopiesAt(net', b, g) == CopiesAt(net, b, g)
  {
    forall b, g: nat
      ensures CopiesAt(net', b, g) == CopiesAt(net, b, g)
      ensures FirstAbove(QueueAt(net', b), g) == FirstAbove(QueueAt(net, b), g)
    {
      var q, q' := QueueAt(net, b), QueueAt(net', b);
      assert Appended(q, q');
      if q' != q {
        assert q' == q + [q'[|q|]];
        AppendViews(q, q'[|q|], g);
      }
    }
  }

  // Chat disturbs no phase.

  lemma SayViews(s: System, e: Step)
    requires e.Say?
    ensures var net' := Apply(s, e).net;
      && (forall lo: Role, k: nat :: SameAbove(s.net, net', lo, k))
      && (forall b, g: nat :: CopiesAt(net', b, g) == CopiesAt(s.net, b, g))
      && (forall b, f: Frame :: !f.Chat? ==> (In(net', b, f) <==> In(s.net, b, f)))
      && (forall b :: FirstLeg(QueueAt(net', b)) == FirstLeg(QueueAt(s.net, b)))
  {
    SayDid(s, e.r, e.text);
    var net' := Apply(s, e).net;
    hide Apply;
    NoNewHello(s.net, net');
    forall b
      ensures FirstLeg(QueueAt(net', b)) == FirstLeg(QueueAt(s.net, b))
    {
      AppendViews(QueueAt(s.net, b), Chat(e.text), 0);
      assert QueueAt(s.net, b) + [] == QueueAt(s.net, b);
    }
  }

  lemma SayKeepsBase(s: System, e: Step, m: nat)
    requires e.Say?
    ensures Base(s, m) ==> Base(Apply(s, e), m)
    ensures forall k: nat, at :: Legs(s.net, k, at) ==> Legs(Apply(s, e).net, k, at)
  {
    SayViews(s, e);
    SayDid(s, e.r, e.text);
    hide Apply, In, QueueAt;
  }

  // What the lower side will read.

  /** The lower side has not moved, and finds the same in its inbox and in those of higher generations. */
  ghost predicate SameView(s: System, s': System, lo: Role) {
    var l, l' := Get(s, lo), Get(s', lo);
    var q, q' := QueueAt(s.net, l.recv), QueueAt(s'.net, l.recv);
    && l'.own == l.own && l'.recv == l.recv && (l.recv in s'.net.boxes <==> l.recv in s.net.boxes)
    && LegFirst(q', l.own) == LegFirst(q, l.own) && FirstAbove(q', l.own) == FirstAbove(q, l.own)
    && SameAbove(s.net, s'.net, lo, l.own + 1) && SpentAt(s', lo) == SpentAt(s, lo)
  }

  lemma ViewSame(s: System, s': System, m: nat, lo: Role)
    requires SameView(s, s', lo)
    ensures Astray(s', lo) == Astray(s, lo) && SpentAt(s', lo) == SpentAt(s, lo)
    ensures Destination(s', m, lo) == Destination(s, m, lo)
  {
    hide SpentAt, LegFirst, Reach;
    var l := Get(s, lo);
    var q := QueueAt(s.net, l.recv);
    ViewsSound(q, l.own);
    ReachSame(s.net, s'.net, lo, l.own + 1, m);
    if FirstAbove(q, l.own).Some? {
      ReachSame(s.net, s'.net, lo, FirstAbove(q, l.own).value, m);
    }
  }

  lemma {:induction false} SpentChat(own: nat, peer: nat, cycles: nat, seen: seq<(nat, nat)>, q: seq<Frame>, text: nat)
    ensures Spent(own, peer, cycles, seen, q + [Chat(text)]) == Spent(own, peer, cycles, seen, q)
    decreases |q|
  {
    hide MarkSeen;
    if q == [] {
      assert (q + [Chat(text)])[1..] == [];
    } else if !q[0].Leg? {
      assert (q + [Chat(text)])[1..] == q[1..] + [Chat(text)];
      if q[0].Hello? && (q[0].gen, q[0].nonce) !in seen {
        var peer' := if q[0].gen > peer then q[0].gen else peer;
        SpentChat(own, peer', 0, MarkSeen(seen, q[0].gen, q[0].nonce), q[1..], text);
      } else {
        SpentChat(own, peer, cycles, seen, q[1..], text);
      }
    }
  }

  lemma {:induction false} SpentWithout(own: nat, peer: nat, cycles: nat, seen: seq<(nat, nat)>, q: seq<Frame>)
    requires forall f :: f in q ==> f.Chat?
    ensures Spent(own, peer, cycles, seen, q) == Spent(own, peer, cycles, seen, [])
  {
    if q != [] {
      assert q[0] in q;
      SpentWithout(own, peer, cycles, seen, q[1..]);
    }
  }

  /** Outside derived inboxes there is only chat. */
  lemma OnlyChat(s: System, m: nat, k: nat, b: Inbox)
    requires HellosUpTo(s.net, m) && Legs(s.net, k, None) && !b.Derived?
    ensures forall f :: f in QueueAt(s.net, b) ==> f.Chat?
  {
    forall f | f in QueueAt(s.net, b)
      ensures f.Chat?
    {
      assert In(s.net, b, f);
      assert HelloOk(b, f, m) && LegAt(b, f, k, None);
    }
  }

  lemma SayKeepsApart(s: System, e: Step, m: nat, hi: Role)
    requires e.Say? && Apart(s, m, hi)
    ensures Apart(Apply(s, e), m, hi) && SameView(s, Apply(s, e), Other(hi))
  {
    var l, s' := Get(s, Other(hi)), Apply(s, e);
    SayKeepsBase(s, e, m);
    SayViews(s, e);
    SayDid(s, e.r, e.text);
    var q := QueueAt(s.net, l.recv);
    AppendViews(q, Chat(e.text), l.own);
    SpentChat(l.own, l.peer, l.cycles, l.seen, q, e.text);
    assert q + [] == q;
    hide Apply, In, QueueAt, SameAbove, CopiesAt, Base, Legs, AboveAt, LegFirst, FirstAbove, Spent, FirstLeg;
  }

  lemma SayKeepsLevel(s: System, e: Step, m: nat)
    requires e.Say? && Level(s, m)
    ensures Level(Apply(s, e), m)
  {
    SayKeepsBase(s, e, m);
    SayDid(s, e.r, e.text);
    hide Apply, QueueAt, Base, Legs;
  }

  lemma SayKeepsRotation(s: System, e: Step, m: nat, c: nat, first: Inbox)
    requires e.Say?
    ensures LegOne(s, m, c, first) ==> LegOne(Apply(s, e), m, c, first)
    ensures LegTwo(s, m, c, first) ==> LegTwo(Apply(s, e), m, c, first)
    ensures Rotated(s, m, c, first) ==> Rotated(Apply(s, e), m, c, first)
  {
    SayKeepsBase(s, e, m);
    SayViews(s, e);
    SayDid(s, e.r, e.text);
    assert LegTwo(s, m, c, first) ==> QueueAt(Apply(s, e).net, s.offerer.recv) == QueueAt(s.net, s.offerer.recv);
    hide Apply, In, QueueAt, FirstLeg, Base, Legs;
  }

  // One delivery.

  lemma MarkSeenEffect(seen: seq<(nat, nat)>, gen: nat, nonce: nat)
    ensures var seen' := MarkSeen(seen, gen, nonce);
      && (gen, nonce) in seen' && (forall x :: x in seen' ==> x in seen || x == (gen, nonce))
  {
    if (gen, nonce) !in seen {
      var longer := seen + [(gen, nonce)];
      assert longer[|longer| - 1] == (gen, nonce);
      if |longer| > RING {
        var cut := longer[|longer| - RING..];
        assert cut[RING - 1] == (gen, nonce);
      }
    }
  }

  lemma DeliverDid(s: System, e: Step)
    requires e.Deliver? && Enabled(s, e) && MintFree(s.net)
    ensures var s', net, p := Apply(s, e), Popped(s.net, Get(s, e.r).recv), Get(s, e.r);
      && Handled(p, net, Head(s, e.r), Both(Get(s', e.r), s'.net))
      && Both(Get(s', e.r), s'.net) == HandleIncoming(p, net, Head(s, e.r), e.a)
      && Get(s', Other(e.r)) == Get(s, Other(e.r))
      && (SeenBelow(p) ==> SeenBelow(Get(s', e.r)))
  {
    var p, net, f := Get(s, e.r), Popped(s.net, Get(s, e.r).recv), Head(s, e.r);
    PopDid(s.net, p.recv);
    HandleDid(p, net, f, e.a);
    SeenStaysBelow(p, net, f, e.a);
    hide Handled, HandleIncoming, Popped;
  }

  lemma SeenStaysBelow(p: Party, net: Net, f: Frame, a: Answers)
    ensures SeenBelow(p) ==> SeenBelow(HandleIncoming(p, net, f, a).p)
  {
    hide Probe, PutBox, Post, Mint, Drop, OutboundWindow;
    if f.Hello? {
      MarkSeenEffect(p.seen, f.gen, f.nonce);
      hide MarkSeen;
    }
  }

  /** A handled frame keeps the bounds on what is queued. */
  lemma HandledKeepsBase(s: System, e: Step, m: nat)
    requires Base(s, m) && e.Deliver? && Enabled(s, e)
    ensures var s' := Apply(s, e);
      s'.responder.awaiting.None? ==> Base(s', m)
    ensures forall b, f: Frame :: In(Apply(s, e).net, b, f) && f.Chat? ==> In(s.net, b, f)
  {
    var p, f, net, s' := Get(s, e.r), Head(s, e.r), Popped(s.net, Get(s, e.r).recv), Apply(s, e);
    DeliverDid(s, e);
    PopDid(s.net, p.recv);
    assert In(s.net, p.recv, f) && HelloOk(p.recv, f, m);
    forall b, x | In(s'.net, b, x)
      ensures HelloOk(b, x, m) && (x.Chat? ==> In(s.net, b, x))
    {
      assert Change(p, Get(s', e.r), f, net, s'.net.nonces, b, QueueAt(net, b), QueueAt(s'.net, b));
      if x in QueueAt(net, b) {
        assert In(s.net, b, x);
      }
    }
    hide Apply, Popped, HandleIncoming, QueueAt, In, Change;
  }

  // A frame that changes no generation, route or rotation.

  /** Same party but for what it remembers of hellos and chat. */
  predicate SameRoutes(p: Party, p': Party) {
    p' == p.(seen := p'.seen, cycles := p'.cycles, peer := p'.peer, read := p'.read)
  }

  predicate Quiet(p: Party, f: Frame) {
    f.Chat? || (f.Hello? &&
      ((f.gen, f.nonce) in p.seen || f.gen < p.own || (f.gen == p.own && p.role.Responder?)))
  }

  lemma QuietDelivery(s: System, e: Step)
    requires e.Deliver? && Enabled(s, e) && Quiet(Get(s, e.r), Head(s, e.r))
    ensures var s', p := Apply(s, e), Get(s, e.r);
      && s'.net == Popped(s.net, p.recv) && SameRoutes(p, Get(s', e.r)) && Get(s', Other(e.r)) == Get(s, Other(e.r))
      && (SeenBelow(p) ==> SeenBelow(Get(s', e.r)))
  {
    SeenStaysBelow(Get(s, e.r), Popped(s.net, Get(s, e.r).recv), Head(s, e.r), e.a);
    hide MarkSeen, SeenBelow, Popped, EnterGen;
  }

  /** Taking a frame off the queue of `at`. */
  lemma PopViews(net: Net, at: Inbox)
    requires at in net.boxes && net.boxes[at] != []
    ensures var net', f := Popped(net, at), net.boxes[at][0];
      && (forall b, x :: In(net', b, x) ==> In(net, b, x))
      && (forall b, g: nat :: CopiesAt(net', b, g) <= CopiesAt(net, b, g))
      && (forall lo: Role, k: nat :: !(at.Derived? && at.owner == lo && at.gen >= k) ==> SameAbove(net, net', lo, k))
      && (at.Derived? && !(f.Hello? && f.gen > at.gen) ==> SameAbove(net, net', at.owner, at.gen))
      && (!f.Leg? ==> forall b :: FirstLeg(QueueAt(net', b)) == FirstLeg(QueueAt(net, b)))
      && (f.Hello? ==> CopiesAt(net', at, f.gen) == CopiesAt(net, at, f.gen) - 1)
  {
    PopDid(net, at);
    hide Popped;
  }

  lemma QuietKeepsBase(s: System, e: Step, m: nat)
    requires Base(s, m) && e.Deliver? && Enabled(s, e) && Quiet(Get(s, e.r), Head(s, e.r))
    ensures Base(Apply(s, e), m)
    ensures forall k: nat, at :: Legs(s.net, k, at) ==> Legs(Apply(s, e).net, k, at)
    ensures Apply(s, e).net.boxes.Keys == s.net.boxes.Keys && Apply(s, e).net.minted == s.net.minted
  {
    QuietDelivery(s, e);
    PopViews(s.net, Get(s, e.r).recv);
    PopDid(s.net, Get(s, e.r).recv);
    hide Apply, In, CopiesAt, SameAbove, FirstLeg, QueueAt, Quiet;
  }

  /** The reader of a frame that is neither a leg nor a higher announcement has heard what it says. */
  lemma Hears(s: System, e: Step)
    requires e.Deliver? && Enabled(s, e) && !Head(s, e.r).Leg?
    requires Head(s, e.r).Hello? ==> Head(s, e.r).gen <= Get(s, e.r).own
    ensures var p, p', q := Get(s, e.r), Get(Apply(s, e), e.r), s.net.boxes[Get(s, e.r).recv];
      && p'.own == p.own && p'.recv == p.recv
      && Spent(p'.own, p'.peer, p'.cycles, p'.seen, q[1..]) == Spent(p.own, p.peer, p.cycles, p.seen, q)
  {
    hide MarkSeen, Popped, EnterGen, Mint, Post;
  }

  /** Taking such a frame off its inbox, the lower side sees the same as before. */
  lemma ReadsOn(s: System, e: Step, lo: Role)
    requires e.Deliver? && e.r == lo && Enabled(s, e) && !Head(s, lo).Leg? && Settled(Get(s, lo))
      && Get(s, lo).role == lo
    requires Head(s, lo).Hello? ==> Head(s, lo).gen <= Get(s, lo).own
    requires var l, net' := Get(s, lo), Apply(s, e).net;
      && QueueAt(net', l.recv) == s.net.boxes[l.recv][1..] && l.recv in net'.boxes
      && forall b: Inbox :: b.Derived? && b.owner == lo && b != l.recv ==> QueueAt(net', b) == QueueAt(s.net, b)
    ensures SameView(s, Apply(s, e), lo)
  {
    var l := Get(s, lo);
    Hears(s, e);
    assert Head(s, lo) == s.net.boxes[l.recv][0];
    hide Apply, Spent;
  }

  /** A frame of the higher side leaves alone what the lower side reads. */
  lemma QuietAhead(s: System, e: Step, m: nat, hi: Role)
    requires Apart(s, m, hi) && e.Deliver? && e.r == hi && Enabled(s, e) && Quiet(Get(s, hi), Head(s, hi))
    ensures SameView(s, Apply(s, e), Other(hi))
  {
    var l, h := Get(s, Other(hi)), Get(s, hi);
    QuietDelivery(s, e);
    PopDid(s.net, h.recv);
    assert h.role == hi && l.recv != h.recv by { ApartRoles(s, m, hi); }
    hide Apply, Popped, Base, Legs, CopiesAt, Spent, Quiet, LegFirst;
  }

  lemma QuietKeepsApart(s: System, e: Step, m: nat, hi: Role)
    requires Apart(s, m, hi) && e.Deliver? && Enabled(s, e) && Quiet(Get(s, e.r), Head(s, e.r))
    ensures Apart(Apply(s, e), m, hi) && SameView(s, Apply(s, e), Other(hi))
  {
    var p, lo := Get(s, e.r), Other(hi);
    QuietDelivery(s, e);
    QuietKeepsBase(s, e, m);
    PopViews(s.net, p.recv);
    PopDid(s.net, p.recv);
    ApartRoles(s, m, hi);
    HellosSeen(s, e, m);
    hide Apply, In, CopiesAt, SameAbove, FirstLeg, QueueAt, Base, Legs, SeenBelow, SameView, Popped;
    if e.r == hi {
      QuietAhead(s, e, m, hi);
    } else {
      ReadsOn(s, e, lo);
    }
  }

  /** A quiet hello is of a generation its reader has reached. */
  lemma HellosSeen(s: System, e: Step, m: nat)
    requires Base(s, m) && e.Deliver? && Enabled(s, e) && Quiet(Get(s, e.r), Head(s, e.r))
    ensures Head(s, e.r).Hello? ==> Head(s, e.r).gen <= Get(s, e.r).own
  {}

  lemma ApartRoles(s: System, m: nat, hi: Role)
    requires Apart(s, m, hi)
    ensures forall r :: Get(s, r).role == r
  {
    hide Legs, HellosUpTo, MintFree, SeenBelow, CopiesAt;
  }

  lemma QuietKeepsLevel(s: System, e: Step, m: nat)
    requires Level(s, m) && e.Deliver? && Enabled(s, e) && Quiet(Get(s, e.r), Head(s, e.r))
    ensures Level(Apply(s, e), m)
  {
    QuietDelivery(s, e);
    QuietKeepsBase(s, e, m);
    hide Apply, Base, Legs, Quiet;
  }

  lemma QuietKeepsRotation(s: System, e: Step, m: nat, c: nat, first: Inbox)
    requires Base(s, m) && e.Deliver? && Enabled(s, e) && Quiet(Get(s, e.r), Head(s, e.r))
    ensures LegOne(s, m, c, first) ==> LegOne(Apply(s, e), m, c, first)
    ensures LegTwo(s, m, c, first) ==> LegTwo(Apply(s, e), m, c, first)
    ensures Rotated(s, m, c, first) ==> Rotated(Apply(s, e), m, c, first)
  {
    QuietDelivery(s, e);
    QuietKeepsBase(s, e, m);
    PopViews(s.net, Get(s, e.r).recv);
    PopDid(s.net, Get(s, e.r).recv);
    var q, q' := QueueAt(s.net, s.offerer.recv), QueueAt(Apply(s, e).net, s.offerer.recv);
    assert Head(s, e.r) == QueueAt(s.net, Get(s, e.r).recv)[0];
    assert q' == if e.r.Offerer? || s.responder.recv == s.offerer.recv then q[1..] else q;
    hide Apply, Base, Legs, In, CopiesAt, SameAbove, FirstLeg, QueueAt;
    if LegTwo(s, m, c, first) && e.r.Offerer? {
      assert |q| > 1;
      assert q'[|q'| - 1] == q[|q| - 1];
      assert forall i :: 0 <= i < |q'| ==> q'[i] == q[i + 1];
    }
  }

  // Entering a generation: adoption of an announced one, or an attempt.

  /** `r` now listens at `g` and has announced it, at most once in each inbox of the other side. */
  ghost predicate Enters(s: System, net: Net, s': System, r: Role, g: nat) {
    var l, l' := Get(s, r), Get(s', r);
    && Get(s', Other(r)) == Get(s, Other(r))
    && RoutedAt(l', g) && l'.role == l.role && l'.awaiting == l.awaiting && SeenBelow(l')
    && l'.recv in s'.net.boxes && s.net.boxes.Keys <= s'.net.boxes.Keys
    && (forall b :: b in s'.net.boxes && b !in s.net.boxes ==> b.Derived?)
    && (forall b :: Grown(b, Other(r), Hello(g, s.net.nonces), QueueAt(net, b), QueueAt(s'.net, b)))
    && s'.net.minted == s.net.minted
  }

  lemma HelloAdopts(s: System, e: Step)
    requires e.Deliver? && Enabled(s, e) && e.a.ownPut && Get(s, e.r).role == e.r && SeenBelow(Get(s, e.r))
    requires Head(s, e.r).Hello? && Get(s, e.r).own < Head(s, e.r).gen
    ensures Enters(s, Popped(s.net, Get(s, e.r).recv), Apply(s, e), e.r, Head(s, e.r).gen)
  {
    var l, f, net := Get(s, e.r), Head(s, e.r), Popped(s.net, Get(s, e.r).recv);
    PopDid(s.net, l.recv);
    var (own, peer, bumped) := Converge(l.own, l.peer, f.gen);
    var p1 := l.(seen := MarkSeen(l.seen, f.gen, f.nonce), cycles := 0, own := own, peer := peer);
    SeenStaysBelow(l, net, f, e.a);
    assert HandleIncoming(l, net, f, e.a) == EnterGen(p1, net, f.gen, e.a) by {
      hide EnterGen, MarkSeen;
    }
    EnterDid(p1, net, f.gen, e.a);
    assert net.nonces == s.net.nonces && net.minted == s.net.minted;
    hide HandleIncoming, Popped, EnterGen, MarkSeen, QueueAt;
  }

  lemma AttemptEnters(s: System, r: Role, a: Answers)
    requires Enabled(s, Attempt(r, a)) && a.ownPut && !Exhausted(Get(s, r)) && Get(s, r).own < U32_MAX
    requires Get(s, r).role == r && SeenBelow(Get(s, r))
    ensures Enters(s, s.net, Apply(s, Attempt(r, a)), r, Get(s, r).own + 1)
  {
    EnterDid(Get(s, r), s.net, Get(s, r).own + 1, a);
    hide EnterGen, QueueAt, Exhausted;
  }

  /** Only hellos of `g` are new, and the boxes of the entering side are untouched. */
  lemma EntersViews(s: System, net: Net, s': System, r: Role, g: nat, m: nat)
    requires Enters(s, net, s', r, g)
    ensures forall b, f :: In(s'.net, b, f) ==> In(net, b, f) || (f.Hello? && f.gen == g && b.Derived?)
    ensures forall k: nat :: SameAbove(net, s'.net, r, k)
    ensures forall b ::
      CopiesAt(s'.net, b, m) <= CopiesAt(net, b, m) + (if g == m && b.Derived? && b.owner == Other(r) then 1 else 0)
  {
    forall b
      ensures CopiesAt(s'.net, b, m) <= CopiesAt(net, b, m)
        + (if g == m && b.Derived? && b.owner == Other(r) then 1 else 0)
    {
      assert Grown(b, Other(r), Hello(g, s.net.nonces), QueueAt(net, b), QueueAt(s'.net, b));
      AppendViews(QueueAt(net, b), Hello(g, s.net.nonces), m);
    }
    forall j: nat
      ensures AboveAt(s'.net, r, j) == AboveAt(net, r, j)
    {
      var b := Derived(r, j);
      assert Grown(b, Other(r), Hello(g, s.net.nonces), QueueAt(net, b), QueueAt(s'.net, b));
    }
  }

  lemma EntersKeepsBase(s: System, net: Net, s': System, r: Role, g: nat, m: nat)
    requires Base(s, m) && Enters(s, net, s', r, g) && g <= m
    requires forall b, f :: In(net, b, f) ==> In(s.net, b, f)
    ensures Base(s', m)
    ensures forall k: nat, at :: Legs(s.net, k, at) ==> Legs(s'.net, k, at)
  {
    EntersViews(s, net, s', r, g, m);
    hide In, CopiesAt, SameAbove, QueueAt, Grown;
  }

  lemma LegsWiden(net: Net, k: nat, k': nat, at: Option<Inbox>)
    requires k <= k' && Legs(net, k, at)
    ensures Legs(net, k', at)
  {
    hide In;
  }

  lemma AboveTransitive(a: Net, b: Net, c: Net, lo: Role, k: nat)
    requires SameAbove(a, b, lo, k) && SameAbove(b, c, lo, k)
    ensures SameAbove(a, c, lo, k)
  {
    forall j: nat | j >= k
      ensures AboveAt(c, lo, j) == AboveAt(a, lo, j)
    {
      assert AboveAt(b, lo, j) == AboveAt(a, lo, j);
      hide AboveAt;
    }
  }

  /** The lower side has entered `g`, with `net` what it left behind in its own inboxes: it is on its way. */
  lemma EnteredBelow(s: System, net: Net, s': System, m: nat, hi: Role, g: nat)
    requires Apart(s, m, hi) && Enters(s, net, s', Other(hi), g) && Get(s, Other(hi)).own < g < m
    requires forall b, f :: In(net, b, f) ==> In(s.net, b, f)
    requires forall b :: CopiesAt(net, b, m) <= CopiesAt(s.net, b, m)
    requires SameAbove(s.net, net, Other(hi), g)
    ensures Apart(s', m, hi) && !Astray(s', Other(hi))
    ensures Destination(s', m, Other(hi)) == Reach(s.net, Other(hi), g, m)
  {
    EntersKeepsBase(s, net, s', Other(hi), g, m);
    EntersViews(s, net, s', Other(hi), g, m);
    assert SameAbove(net, s'.net, Other(hi), g);
    assert SameAbove(s.net, s'.net, Other(hi), g) by { AboveTransitive(s.net, net, s'.net, Other(hi), g); }
    ReachSame(s.net, s'.net, Other(hi), g, m);
    LegsWiden(s'.net, Get(s, Other(hi)).own + 1, g, None);
    LegsWiden(s'.net, g, g + 1, None);
    ApartRoles(s, m, hi);
    FreeAt(s'.net, Derived(Other(hi), g), g);
    assert CopiesAt(s'.net, Derived(Offerer, m), m) <= CopiesAt(s.net, Derived(Offerer, m), m);
    LeadsIsReach(s'.net, Other(hi), g, m);
    hide In, CopiesAt, SameAbove, QueueAt, Grown, Reach, Base, Legs, LegFirst, Leads;
  }

  lemma LeadsIsReach(net: Net, lo: Role, k: nat, m: nat)
    requires k < m
    ensures Leads(net, lo, Derived(lo, k), k, m) == Reach(net, lo, k, m)
  {
    ViewsSound(QueueAt(net, Derived(lo, k)), k);
  }

  /** No leg waits in an inbox of a generation without legs. */
  lemma FreeAt(net: Net, b: Inbox, k: nat)
    requires Legs(net, k, None) && b.Derived? && b.gen >= k
    ensures forall j: nat :: !LegFirst(QueueAt(net, b), j)
  {
    forall j: nat
      ensures !LegFirst(QueueAt(net, b), j)
    {
      ViewsSound(QueueAt(net, b), j);
      assert forall f :: f in QueueAt(net, b) ==> In(net, b, f) && LegAt(b, f, k, None);
    }
  }

  lemma EnteredLevel(s: System, net: Net, s': System, m: nat, hi: Role)
    requires Apart(s, m, hi) && Enters(s, net, s', Other(hi), m)
    requires forall b, f :: In(net, b, f) ==> In(s.net, b, f)
    ensures Level(s', m)
  {
    EntersKeepsBase(s, net, s', Other(hi), m, m);
    LegsWiden(s'.net, Get(s, Other(hi)).own + 1, m, None);
    hide In, CopiesAt, SameAbove, QueueAt, Grown, Base, Legs;
  }

  /** On its way or there. */
  ghost predicate Advanced(s: System, s': System, m: nat, hi: Role) {
    var lo := Other(hi);
    || (Apart(s', m, hi) && !Astray(s', lo) && Destination(s', m, lo) == Destination(s, m, lo))
    || (Level(s', m) && Destination(s, m, lo) == m)
  }

  /** The lower side reads an announcement above its generation. */
  lemma AdoptsOnWay(s: System, e: Step, m: nat, hi: Role)
    requires Apart(s, m, hi) && e.Deliver? && e.r == Other(hi) && Enabled(s, e) && e.a.ownPut
    requires Head(s, e.r).Hello? && Get(s, e.r).own < Head(s, e.r).gen
    ensures !Astray(s, Other(hi)) && Advanced(s, Apply(s, e), m, hi)
  {
    var l, f := Get(s, e.r), Head(s, e.r);
    var net, lo := Popped(s.net, l.recv), Other(hi);
    ApartRoles(s, m, hi);
    assert In(s.net, l.recv, f) && HelloOk(l.recv, f, m);
    assert QueueAt(s.net, l.recv)[0] == f;
    assert FirstAbove(QueueAt(s.net, l.recv), l.own) == Some(f.gen) && !LegFirst(QueueAt(s.net, l.recv), l.own);
    assert Destination(s, m, lo) == Reach(s.net, lo, f.gen, m);
    HelloAdopts(s, e);
    PopViews(s.net, l.recv);
    assert SameAbove(s.net, net, lo, f.gen);
    hide In, CopiesAt, SameAbove, QueueAt, Base, Legs, Apply, Popped, Enters, FirstAbove, LegFirst;
    if f.gen < m {
      EnteredBelow(s, net, Apply(s, e), m, hi, f.gen);
    } else {
      EnteredLevel(s, net, Apply(s, e), m, hi);
    }
  }

  /** An attempt of the lower side changes nothing, or brings it to its next generation. */
  lemma AttemptOnWay(s: System, e: Step, m: nat, hi: Role)
    requires Apart(s, m, hi) && e.Attempt? && e.r == Other(hi) && Enabled(s, e)
    ensures Astray(s, Other(hi))
    ensures if e.a.ownPut && !SpentAt(s, Other(hi)) then Advanced(s, Apply(s, e), m, hi) else Apply(s, e) == s
  {
    var l, lo := Get(s, e.r), Other(hi);
    assert SpentAt(s, lo) == Exhausted(l);
    if !Exhausted(l) && e.a.ownPut {
      ApartRoles(s, m, hi);
      AttemptEnters(s, lo, e.a);
      hide In, CopiesAt, QueueAt, Base, Legs, Apply, Enters, Spent;
      if l.own + 1 < m {
        EnteredBelow(s, s.net, Apply(s, e), m, hi, l.own + 1);
      } else {
        EnteredLevel(s, s.net, Apply(s, e), m, hi);
      }
    } else {
      assert Apply(s, e) == s;
    }
  }

  /** Astray it stays, with the same in front of it. */
  ghost predicate Strays(s: System, s': System, m: nat, hi: Role) {
    var lo := Other(hi);
    && Apart(s', m, hi) && Astray(s', lo) && SpentAt(s', lo) == SpentAt(s, lo)
    && Destination(s', m, lo) == Destination(s, m, lo)
  }

  lemma LoseOnWay(s: System, e: Step, m: nat, hi: Role)
    requires Apart(s, m, hi) && e.Lose? && Elsewhere(s, m, Other(hi)) && e.id == Get(s, Other(hi)).recv
    ensures Astray(s, Other(hi)) && Strays(s, Apply(s, e), m, hi)
  {
    hide Reach, Spent, LegFirst, Drop, FirstAbove;
    var s', lo := Apply(s, e), Other(hi);
    var l := Get(s, lo);
    DropDid(s.net, e.id);
    assert forall b, f :: In(s'.net, b, f) ==> In(s.net, b, f);
    assert forall j: nat :: QueueAt(s'.net, Derived(lo, j)) == QueueAt(s.net, Derived(lo, j));
    assert QueueAt(s'.net, Derived(Offerer, m)) == QueueAt(s.net, Derived(Offerer, m));
    ReachSame(s.net, s'.net, lo, l.own + 1, m);
    if !l.recv.Derived? {
      OnlyChat(s, m, l.own + 1, l.recv);
    }
    SpentWithout(l.own, l.peer, l.cycles, l.seen, QueueAt(s.net, l.recv));
    hide In, QueueAt;
  }

  // The offerer reads an unseen hello of its own generation.

  /** A rotation is started if the relay mints the inbox; the leg is left if it also takes the deposit. */
  ghost predicate Initiated(s: System, s': System, a: Answers)
    requires s.offerer.recv in s.net.boxes && s.net.boxes[s.offerer.recv] != []
  {
    var p, fa, net := s.offerer, Minted(s.net.minted), Popped(s.net, s.offerer.recv);
    var to := Derived(Responder, p.own);
    && s'.responder == s.responder && SeenBelow(s'.offerer)
    && SameRoutes(p, s'.offerer.(awaiting := p.awaiting))
    && s'.offerer.awaiting == (if a.create then Some(Awaiting(fa, Derived(Offerer, p.own))) else p.awaiting)
    && s'.net.boxes.Keys == s.net.boxes.Keys + (if a.create then {fa} else {})
    && s'.net.minted == s.net.minted + (if a.create then 1 else 0)
    && (forall b :: QueueAt(s'.net, b) == QueueAt(net, b)
          + (if b == to && a.create && a.deposit && to in s.net.boxes then [Leg(fa)] else []))
  }

  lemma HelloInitiates(s: System, e: Step)
    requires e.Deliver? && e.r == Offerer && Enabled(s, e) && s.offerer.role.Offerer? && SeenBelow(s.offerer)
      && MintFree(s.net)
    requires Initiates(s, e, s.offerer.own)
    ensures Initiated(s, Apply(s, e), e.a)
  {
    var p, f, net := s.offerer, Head(s, Offerer), Popped(s.net, s.offerer.recv);
    PopDid(s.net, p.recv);
    var (own, peer, bumped) := Converge(p.own, p.peer, f.gen);
    var p1 := p.(seen := MarkSeen(p.seen, f.gen, f.nonce), cycles := 0, own := own, peer := peer);
    SeenStaysBelow(p, net, f, e.a);
    assert HandleIncoming(p, net, f, e.a) == InitiateRotation(p1, net, e.a) by {
      hide InitiateRotation, MarkSeen;
    }
    RotationDid(net, Derived(Responder, p.own));
    assert net.minted == s.net.minted;
    assert forall b :: QueueAt(net, b) + [] == QueueAt(net, b);
    hide QueueAt, HandleIncoming, Popped, MarkSeen, Converge, Mint, Post;
  }

  lemma InitiatedViews(s: System, s': System, a: Answers, m: nat)
    requires s.offerer.recv in s.net.boxes && s.net.boxes[s.offerer.recv] != []
    requires Initiated(s, s', a) && MintFree(s.net)
    ensures MintFree(s'.net)
    ensures forall b, f :: In(s'.net, b, f) ==>
      || In(s.net, b, f)
      || (f == Leg(Minted(s.net.minted)) && b == Derived(Responder, s.offerer.own) && a.create && a.deposit)
    ensures forall lo: Role, k: nat :: SameAbove(Popped(s.net, s.offerer.recv), s'.net, lo, k)
    ensures CopiesAt(s'.net, s.offerer.recv, m) <= CopiesAt(Popped(s.net, s.offerer.recv), s.offerer.recv, m)
    ensures s.offerer.recv != Derived(Responder, s.offerer.own) ==>
      QueueAt(s'.net, s.offerer.recv) == QueueAt(s.net, s.offerer.recv)[1..]
  {
    var net := Popped(s.net, s.offerer.recv);
    PopDid(s.net, s.offerer.recv);
    assert forall b :: Appended(QueueAt(net, b), QueueAt(s'.net, b));
    NoNewHello(net, s'.net);
    hide Popped, SameAbove, CopiesAt;
  }

  /** The leg of a rotation started at `own`, if any, lies where Legs(_, k, at) allows. */
  predicate LegFits(own: nat, k: nat, at: Option<Inbox>, a: Answers) {
    a.create && a.deposit ==> own < k || at == Some(Derived(Responder, own))
  }

  lemma InitiatedKeepsBase(s: System, e: Step, m: nat)
    requires Base(s, m) && e.Deliver? && e.r == Offerer && Enabled(s, e) && Initiates(s, e, s.offerer.own)
    ensures Base(Apply(s, e), m) && Initiated(s, Apply(s, e), e.a)
    ensures forall k: nat, at :: Legs(s.net, k, at) && LegFits(s.offerer.own, k, at, e.a) ==>
      Legs(Apply(s, e).net, k, at)
  {
    HelloInitiates(s, e);
    InitiatedViews(s, Apply(s, e), e.a, m);
    hide Apply, In, CopiesAt, SameAbove, QueueAt, Popped, Enabled, Initiates;
  }

  /** Below the responder, the offerer starts a rotation nobody will answer; it disturbs nothing. */
  lemma InitiatesOnWay(s: System, e: Step, m: nat)
    requires Apart(s, m, Responder) && e.Deliver? && e.r == Offerer && Enabled(s, e) && Initiates(s, e, s.offerer.own)
    ensures Apart(Apply(s, e), m, Responder) && SameView(s, Apply(s, e), Offerer)
  {
    InitiatedKeepsBase(s, e, m);
    InitiatedViews(s, Apply(s, e), e.a, m);
    PopDid(s.net, s.offerer.recv);
    var s', to := Apply(s, e), Derived(Responder, s.offerer.own);
    assert forall b: Inbox :: b != to && b != s.offerer.recv ==> QueueAt(s'.net, b) == QueueAt(s.net, b);
    assert LegFits(s.offerer.own, s.offerer.own + 1, None, e.a);
    hide Apply, In, CopiesAt, SameAbove, QueueAt, Popped, Base, Legs, SameView, LegFits;
    ApartRoles(s, m, Responder);
    ReadsOn(s, e, Offerer);
  }

  // The lower side reads a leg.

  /** It moves to a fresh inbox; what it leaves or deletes is of generations it has reached. */
  lemma LegMoves(s: System, e: Step, m: nat, hi: Role)
    requires Apart(s, m, hi) && e.Deliver? && e.r == Other(hi) && Enabled(s, e) && Granted(s, e) && Head(s, e.r).Leg?
    ensures var s', l, l' := Apply(s, e), Get(s, e.r), Get(Apply(s, e), e.r);
      && l'.recv.Minted? && l'.awaiting.None? && Get(s', hi) == Get(s, hi)
      && l' == l.(send := l'.send, recv := l'.recv, awaiting := None)
  {
    hide Popped, Mint, Post, Drop, Base, Legs, CopiesAt;
  }

  lemma LegTakesAway(s: System, e: Step, m: nat, hi: Role)
    requires Apart(s, m, hi) && e.Deliver? && e.r == Other(hi) && Enabled(s, e) && Granted(s, e) && Head(s, e.r).Leg?
    ensures Astray(s, Other(hi)) && Strays(s, Apply(s, e), m, hi)
  {
    hide Apply, HandleIncoming, Handled, In, CopiesAt, SameAbove, Spent, LegFirst, Reach, SeenBelow, HellosUpTo;
    hide QueueAt;
    hide Legs, MintFree, FirstAbove;
    var lo, l, s' := Other(hi), Get(s, e.r), Apply(s, e);
    ApartRoles(s, m, hi);
    LegMoves(s, e, m, hi);
    HandledKeepsBase(s, e, m);
    LegChanges(s, e, m, hi);
    LegWaits(s, e);
    ReachSame(s.net, s'.net, lo, l.own + 1, m);
    OnlyChat(s', m, l.own + 1, Get(s', lo).recv);
    SpentWithout(l.own, l.peer, l.cycles, l.seen, QueueAt(s'.net, Get(s', lo).recv));
    hide Base;
  }

  /** A leg at the front is read before anything else. */
  lemma LegWaits(s: System, e: Step)
    requires e.Deliver? && Enabled(s, e) && Head(s, e.r).Leg?
    ensures var l := Get(s, e.r); var q := QueueAt(s.net, l.recv);
      LegFirst(q, l.own) && SpentAt(s, e.r) == Spent(l.own, l.peer, l.cycles, l.seen, [])
  {}

  lemma LegChanges(s: System, e: Step, m: nat, hi: Role)
    requires Apart(s, m, hi) && e.Deliver? && e.r == Other(hi) && Enabled(s, e) && Granted(s, e) && Head(s, e.r).Leg?
    ensures var s', lo, own := Apply(s, e), e.r, Get(s, e.r).own;
      && Legs(s'.net, own + 1, None) && SameAbove(s.net, s'.net, lo, own + 1)
      && Get(s, hi).recv in s'.net.boxes
      && CopiesAt(s'.net, Derived(Offerer, m), m) <= CopiesAt(s.net, Derived(Offerer, m), m)
  {
    var lo, l, f, net, s' := Other(hi), Get(s, e.r), Head(s, e.r), Popped(s.net, Get(s, e.r).recv), Apply(s, e);
    ApartRoles(s, m, hi);
    DeliverDid(s, e);
    PopDid(s.net, l.recv);
    PopViews(s.net, l.recv);
    assert In(s.net, l.recv, f) && LegAt(l.recv, f, l.own + 1, None);
    var d := Derived(Offerer, m);
    assert Change(l, Get(s', lo), f, net, s'.net.nonces, d, QueueAt(net, d), QueueAt(s'.net, d));
    AppendViews(QueueAt(net, d), Leg(Minted(net.minted)), m);
    hide Apply, Popped, HandleIncoming, FirstAbove, CopiesAt, SameAbove;
    forall b, x | In(s'.net, b, x)
      ensures LegAt(b, x, l.own + 1, None)
    {
      assert Change(l, Get(s', lo), f, net, s'.net.nonces, b, QueueAt(net, b), QueueAt(s'.net, b));
      if x in QueueAt(net, b) {
        assert In(s.net, b, x);
      }
    }
    forall j: nat | j >= l.own + 1
      ensures AboveAt(s'.net, lo, j) == AboveAt(s.net, lo, j)
    {
      var b := Derived(lo, j);
      assert Change(l, Get(s', lo), f, net, s'.net.nonces, b, QueueAt(net, b), QueueAt(s'.net, b));
    }
  }

  /** Phase 2: the first leg deposited opens phase 3. */
  lemma LevelInitiates(s: System, e: Step, m: nat)
    requires Level(s, m) && e.Deliver? && e.r == Offerer && Enabled(s, e) && Initiates(s, e, m)
    ensures if e.a.create && e.a.deposit then LegOne(Apply(s, e), m, 1, Minted(s.net.minted)) else Level(Apply(s, e), m)
  {
    InitiatedKeepsBase(s, e, m);
    InitiatedViews(s, Apply(s, e), e.a, m);
    var to := Derived(Responder, m);
    PopDid(s.net, s.offerer.recv);
    assert QueueAt(Popped(s.net, s.offerer.recv), to) == QueueAt(s.net, to);
    LegsWidenAt(s.net, m, Some(to));
    ViewsSound(QueueAt(s.net, to), 0);
    assert forall f :: f in QueueAt(s.net, to) ==> In(s.net, to, f) && LegAt(to, f, m, None);
    AppendViews(QueueAt(s.net, to), Leg(Minted(s.net.minted)), 0);
    hide Apply, In, CopiesAt, SameAbove, QueueAt, Popped, Base, Legs, FirstLeg;
  }

  lemma LegsWidenAt(net: Net, k: nat, at: Option<Inbox>)
    requires Legs(net, k, None)
    ensures Legs(net, k, at)
  {
    hide In;
  }

  /** Phases 3 and 4: every further start moves the inbox the offerer will go to, not the one announced. */
  lemma WaitingInitiates(s: System, e: Step, m: nat, c: nat, first: Inbox)
    requires OffererWaits(s, m, c, first) && e.Deliver? && e.r == Offerer && Enabled(s, e) && Initiates(s, e, m)
    ensures var c' := if e.a.create then c + 1 else c;
      && OffererWaits(Apply(s, e), m, c', first)
      && Apply(s, e).responder == s.responder && s.net.boxes.Keys <= Apply(s, e).net.boxes.Keys
      && Apply(s, e).offerer.recv == s.offerer.recv
  {
    InitiatedKeepsBase(s, e, m);
    assert Minted(s.net.minted) !in s.net.boxes;
    hide Apply, QueueAt, Popped, Base, Legs, Initiates;
  }

  lemma LegOneInitiates(s: System, e: Step, m: nat, c: nat, first: Inbox)
    requires LegOne(s, m, c, first) && e.Deliver? && e.r == Offerer && Enabled(s, e) && Initiates(s, e, m)
    ensures LegOne(Apply(s, e), m, if e.a.create then c + 1 else c, first)
  {
    WaitingInitiates(s, e, m, c, first);
    InitiatedKeepsBase(s, e, m);
    var to, s' := Derived(Responder, m), Apply(s, e);
    PopDid(s.net, s.offerer.recv);
    assert QueueAt(Popped(s.net, s.offerer.recv), to) == QueueAt(s.net, to);
    AppendViews(QueueAt(s.net, to), Leg(Minted(s.net.minted)), 0);
    assert FirstLeg(QueueAt(s'.net, to)) == FirstLeg(QueueAt(s.net, to)) by {
      assert QueueAt(s.net, to) + [] == QueueAt(s.net, to);
    }
    hide Apply, QueueAt, Popped, Base, Legs, Initiates, OffererWaits, Initiated, FirstLeg;
    assert s.responder.recv == to && s.offerer.own == m by { WaitsAt(s, m, c, first); }
  }

  lemma WaitsAt(s: System, m: nat, c: nat, first: Inbox)
    requires OffererWaits(s, m, c, first)
    ensures RoutedAt(s.offerer, m) && s.offerer.role.Offerer? && s.responder.role.Responder?
      && s.offerer.recv == Derived(Offerer, m)
    ensures Base(s, m) && s.offerer.awaiting.Some?
  {}

  lemma LegTwoInitiates(s: System, e: Step, m: nat, c: nat, first: Inbox)
    requires LegTwo(s, m, c, first) && e.Deliver? && e.r == Offerer && Enabled(s, e) && Initiates(s, e, m)
    ensures LegTwo(Apply(s, e), m, if e.a.create then c + 1 else c, first)
  {
    WaitingInitiates(s, e, m, c, first);
    InitiatedKeepsBase(s, e, m);
    InitiatedViews(s, Apply(s, e), e.a, m);
    WaitsAt(s, m, c, first);
    var q, q' := QueueAt(s.net, s.offerer.recv), QueueAt(Apply(s, e).net, s.offerer.recv);
    assert q' == q[1..] && q[0] == Head(s, Offerer);
    assert q'[|q'| - 1] == q[|q| - 1] && forall i :: 0 <= i < |q'| ==> q'[i] == q[i + 1];
    assert Minted(s.net.minted) !in s.net.boxes;
    hide Apply, QueueAt, Popped, Base, Legs, OffererWaits, In, SameAbove, CopiesAt, MintFree;
  }

  // Legs.

  lemma LegOneAnswered(s: System, e: Step, m: nat, c: nat, first: Inbox)
    requires LegOne(s, m, c, first) && e.Deliver? && e.r == Responder && Enabled(s, e) && e.a.create && e.a.deposit
    requires Head(s, Responder).Leg?
    ensures LegTwo(Apply(s, e), m, c, first)
  {
    var p, net := s.responder, Popped(s.net, s.responder.recv);
    var fb, d, s' := Minted(s.net.minted), Derived(Offerer, m), Apply(s, e);
    HandledKeepsBase(s, e, m);
    PopDid(s.net, p.recv);
    RotationDid(net, d);
    var net2 := Post(Mint(net), d, Leg(fb));
    DropDid(net2, p.recv);
    assert Head(s, Responder).inbox == first;
    assert s'.net == if e.a.delete then Drop(net2, p.recv) else net2;
    assert s'.responder == p.(send := first, recv := fb) && s'.offerer == s.offerer;
    var q := QueueAt(s.net, d);
    assert QueueAt(s'.net, d) == q + [Leg(fb)];
    forall i | 0 <= i < |q|
      ensures !q[i].Leg?
    {
      assert In(s.net, d, q[i]) && LegAt(d, q[i], m, Some(p.recv));
    }
    AnsweredLegs(s, s', m, d, fb);
    hide Apply, QueueAt, Popped, Mint, Post, Drop, Base, Legs, In;
  }

  lemma AnsweredLegs(s: System, s': System, m: nat, d: Inbox, fb: Inbox)
    requires Legs(s.net, m, Some(Derived(Responder, m)))
    requires forall b :: b != d ==> forall f :: f in QueueAt(s'.net, b) ==> f in QueueAt(s.net, b)
    ensures Legs(s'.net, m + 1, Some(d))
  {
    forall b, f | In(s'.net, b, f)
      ensures LegAt(b, f, m + 1, Some(d))
    {
      if b != d {
        assert In(s.net, b, f) && LegAt(b, f, m, Some(Derived(Responder, m)));
      }
    }
  }

  /** The offerer takes leg two with nothing else left in its derived inbox. */
  lemma LegTwoHandled(s: System, e: Step, m: nat, c: nat, first: Inbox)
    requires LegTwo(s, m, c, first) && e.Deliver? && e.r == Offerer && Enabled(s, e) && Head(s, Offerer).Leg?
    ensures Rotated(Apply(s, e), m, c, first)
    ensures QueueAt(s.net, s.offerer.recv) == [Leg(s.responder.recv)]
    ensures QueueAt(Apply(s, e).net, s.offerer.recv) == []
  {
    var p, net, s' := s.offerer, Popped(s.net, s.offerer.recv), Apply(s, e);
    HandledKeepsBase(s, e, m);
    PopDid(s.net, p.recv);
    DropDid(net, p.recv);
    var q := QueueAt(s.net, p.recv);
    assert q[0] == Head(s, Offerer) && |q| == 1;
    assert s'.net == if e.a.delete then Drop(net, p.recv) else net;
    assert forall b, f :: In(s'.net, b, f) ==> In(s.net, b, f) && b != p.recv;
    hide Apply, QueueAt, Popped, Drop, In, Base;
  }

  // Calm runs.

  /** In every phase the frame about to be delivered is one the phase knows. */
  lemma HeadKnown(s: System, e: Step, m: nat, hi: Role, g: nat, c: nat, first: Inbox)
    requires Phase(s, m, hi, g, c, first) && e.Deliver? && Enabled(s, e)
    ensures var p, f := Get(s, e.r), Head(s, e.r);
      && s.offerer.own <= m && s.responder.own <= m && p.role == e.r
      && (f.Hello? ==> p.recv.Derived? && f.gen <= m)
      && (f.Leg? ==>
            || (Apart(s, m, hi) && e.r == Other(hi) && p.recv.Derived?)
            || (LegOne(s, m, c, first) && e.r.Responder?)
            || (LegTwo(s, m, c, first) && e.r.Offerer?))
  {
    var p, f := Get(s, e.r), Head(s, e.r);
    assert In(s.net, p.recv, f);
    assert HelloOk(p.recv, f, m);
    assert Apart(s, m, hi) ==> LegAt(p.recv, f, Get(s, Other(hi)).own + 1, None);
    assert Level(s, m) ==> LegAt(p.recv, f, m, None);
    assert Rotated(s, m, c, first) ==> LegAt(p.recv, f, m + 1, None);
    assert LegOne(s, m, c, first) ==> LegAt(p.recv, f, m, Some(s.responder.recv));
    assert LegTwo(s, m, c, first) ==> LegAt(p.recv, f, m + 1, Some(s.offerer.recv));
    hide In, Destination, CopiesAt, FirstLeg, QueueAt, MintFree, HellosUpTo, Legs, SeenBelow;
  }

  lemma NoCopyAhead(s: System, e: Step, m: nat, hi: Role)
    requires Apart(s, m, hi) && e.Deliver? && Enabled(s, e)
    ensures hi.Offerer? && e.r.Offerer? ==> !(Head(s, e.r).Hello? && Head(s, e.r).gen == m)
  {
    ViewsSound(QueueAt(s.net, Derived(Offerer, m)), m);
  }

  /** Whether the lower side is astray decides what a delivery means. */
  lemma ApartDelivers(s: System, e: Step, m: nat, hi: Role)
    requires Apart(s, m, hi) && e.Deliver? && Enabled(s, e) && Granted(s, e)
    requires var p, f := Get(s, e.r), Head(s, e.r);
      p.role == e.r && (f.Leg? ==> e.r == Other(hi)) && (f.Hello? ==> p.recv.Derived? && f.gen <= m)
    ensures !Initiates(s, e, m)
    ensures if Astray(s, Other(hi)) then Strays(s, Apply(s, e), m, hi) else Advanced(s, Apply(s, e), m, hi)
  {
    var p, f, s' := Get(s, e.r), Head(s, e.r), Apply(s, e);
    NoCopyAhead(s, e, m, hi);
    ApartOwn(s, m, hi);
    hide Apply, Apart, Astray, Destination, SpentAt, Level;
    if f.Leg? {
      LegTakesAway(s, e, m, hi);
    } else if Quiet(p, f) {
      QuietKeepsApart(s, e, m, hi);
      ViewSame(s, s', m, Other(hi));
    } else if f.gen > p.own {
      AdoptsOnWay(s, e, m, hi);
    } else {
      InitiatesOnWay(s, e, m);
      ViewSame(s, s', m, Offerer);
    }
  }

  lemma ApartOwn(s: System, m: nat, hi: Role)
    requires Apart(s, m, hi)
    ensures Get(s, hi).own == m && Get(s, Other(hi)).own < m <= U32_MAX
    ensures Settled(Get(s, Other(hi))) && Get(s, hi).recv in s.net.boxes && s.responder.awaiting.None?
  {
    hide Legs, HellosUpTo, MintFree, SeenBelow, CopiesAt;
  }

  /**
   A calm step before the generations are level. A side astray stays astray, unless an attempt of it is granted
   while it is not exhausted; a side on its way stays on it; and where it is going does not change.
   */
  lemma ApartStep(s: System, e: Step, m: nat, hi: Role)
    requires Apart(s, m, hi) && Enabled(s, e) && Calm(s, e, m, hi)
    requires e.Deliver? ==>
      var p, f := Get(s, e.r), Head(s, e.r);
      p.role == e.r && (f.Leg? ==> e.r == Other(hi)) && (f.Hello? ==> p.recv.Derived? && f.gen <= m)
    ensures !Initiates(s, e, m)
    ensures
      if Astray(s, Other(hi)) && !(Served(e, Other(hi)) && !SpentAt(s, Other(hi))) then Strays(s, Apply(s, e), m, hi)
      else Advanced(s, Apply(s, e), m, hi)
  {
    hide Apply, Apart, Astray, Destination, SpentAt, Level, Elsewhere;
    match e
    case Deliver(_, _) => ApartDelivers(s, e, m, hi);
    case Say(_, _) =>
      SayKeepsApart(s, e, m, hi);
      ViewSame(s, Apply(s, e), m, Other(hi));
    case Attempt(_, _) => AttemptOnWay(s, e, m, hi);
    case Lose(id) =>
      if id in s.net.boxes {
        LoseOnWay(s, e, m, hi);
      } else {
        LoseNothing(s, id);
      }
  }

  lemma LoseNothing(s: System, id: Inbox)
    requires id !in s.net.boxes
    ensures Apply(s, Lose(id)) == s
  {
    assert s.net.boxes - {id} == s.net.boxes;
  }

  lemma LevelDelivers(s: System, e: Step, m: nat)
    requires Level(s, m) && e.Deliver? && Enabled(s, e) && !Head(s, e.r).Leg?
    requires Head(s, e.r).Hello? ==> Head(s, e.r).gen <= m
    ensures StartsAfter(s, e, m, 0) == (if LegOne(Apply(s, e), m, 1, Minted(s.net.minted)) then 1 else 0)
    ensures Level(Apply(s, e), m) || LegOne(Apply(s, e), m, 1, Minted(s.net.minted))
  {
    if Quiet(Get(s, e.r), Head(s, e.r)) {
      QuietKeepsLevel(s, e, m);
    } else {
      LevelInitiates(s, e, m);
    }
    LevelHasNoLeg(Apply(s, e), m);
    hide Apply, Base, Legs;
  }

  lemma LevelHasNoLeg(s: System, m: nat)
    ensures Level(s, m) ==> forall c: nat, first :: !LegOne(s, m, c, first)
  {
    if Level(s, m) {
      var q := QueueAt(s.net, s.responder.recv);
      ViewsSound(q, 0);
      assert forall f :: f in q ==> In(s.net, s.responder.recv, f) && LegAt(s.responder.recv, f, m, None);
    }
  }

  lemma RotationDelivers(s: System, e: Step, m: nat, c: nat, first: Inbox)
    requires LegOne(s, m, c, first) || LegTwo(s, m, c, first) || Rotated(s, m, c, first)
    requires e.Deliver? && Enabled(s, e) && Granted(s, e)
    requires var p, f := Get(s, e.r), Head(s, e.r);
      && (f.Hello? ==> p.recv.Derived? && f.gen <= m)
      && (f.Leg? ==> (LegOne(s, m, c, first) && e.r.Responder?) || (LegTwo(s, m, c, first) && e.r.Offerer?))
    ensures var s', c' := Apply(s, e), StartsAfter(s, e, m, c);
      LegOne(s', m, c', first) || LegTwo(s', m, c', first) || Rotated(s', m, c', first)
  {
    var p, f := Get(s, e.r), Head(s, e.r);
    hide Apply, Legs, HellosUpTo, MintFree, FirstLeg, SeenBelow;
    if Quiet(p, f) {
      QuietKeepsRotation(s, e, m, c, first);
    } else if f.Leg? {
      if LegOne(s, m, c, first) && e.r.Responder? {
        LegOneAnswered(s, e, m, c, first);
      } else {
        LegTwoHandled(s, e, m, c, first);
      }
    } else if LegOne(s, m, c, first) {
      LegOneInitiates(s, e, m, c, first);
    } else {
      LegTwoInitiates(s, e, m, c, first);
    }
  }

  lemma LevelIsNotLegTwo(s: System, m: nat, c: nat, first: Inbox)
    ensures Level(s, m) ==> !LegTwo(s, m, c, first)
  {}

  /** From level generations on. */
  ghost predicate Joined(s: System, m: nat, c: nat, first: Inbox) {
    (c == 0 && Level(s, m)) || LegOne(s, m, c, first) || LegTwo(s, m, c, first) || Rotated(s, m, c, first)
  }

  lemma JoinedLive(s: System, m: nat, c: nat, first: Inbox)
    requires Joined(s, m, c, first)
    ensures s.offerer.recv in s.net.boxes && s.responder.recv in s.net.boxes
    ensures s.offerer.own == s.responder.own == m
    ensures LegOne(s, m, c, first) ==> s.responder.role.Responder? && s.responder.recv == Derived(Responder, m)
    ensures LegTwo(s, m, c, first) ==> s.offerer.awaiting.Some?
  {
    hide Base, Legs, FirstLeg, QueueAt;
    assert Base(s, m);
    assert s.responder.role.Responder? by { BaseRoles(s, m); }
  }

  lemma BaseRoles(s: System, m: nat)
    requires Base(s, m)
    ensures s.offerer.role.Offerer? && s.responder.role.Responder? && s.responder.awaiting.None?
  {}

  lemma JoinedDelivers(s: System, e: Step, m: nat, c: nat, first: Inbox) returns (first': Inbox)
    requires Joined(s, m, c, first) && e.Deliver? && Enabled(s, e) && Granted(s, e)
    requires var p, f := Get(s, e.r), Head(s, e.r);
      && (f.Hello? ==> p.recv.Derived? && f.gen <= m)
      && (f.Leg? ==> (LegOne(s, m, c, first) && e.r.Responder?) || (LegTwo(s, m, c, first) && e.r.Offerer?))
    ensures Joined(Apply(s, e), m, StartsAfter(s, e, m, c), first')
  {
    first' := first;
    hide Level, LegOne, LegTwo, Rotated, Apply, Enabled, Granted, Initiates;
    if c == 0 && Level(s, m) {
      LevelHasNoLeg(s, m);
      LevelIsNotLegTwo(s, m, c, first);
      LevelDelivers(s, e, m);
      first' := Minted(s.net.minted);
    } else {
      RotationDelivers(s, e, m, c, first);
    }
  }

  lemma JoinedStep(s: System, e: Step, m: nat, hi: Role, c: nat, first: Inbox) returns (first': Inbox)
    requires Joined(s, m, c, first) && Enabled(s, e) && Calm(s, e, m, hi)
    requires e.Deliver? ==>
      var p, f := Get(s, e.r), Head(s, e.r);
      && (f.Hello? ==> p.recv.Derived? && f.gen <= m)
      && (f.Leg? ==> (LegOne(s, m, c, first) && e.r.Responder?) || (LegTwo(s, m, c, first) && e.r.Offerer?))
    ensures Joined(Apply(s, e), m, StartsAfter(s, e, m, c), first')
  {
    first' := first;
    JoinedLive(s, m, c, first);
    hide Level, LegOne, LegTwo, Rotated, Apply;
    match e
    case Deliver(_, _) => first' := JoinedDelivers(s, e, m, c, first);
    case Say(_, _) =>
      if Level(s, m) { SayKeepsLevel(s, e, m); }
      SayKeepsRotation(s, e, m, c, first);
    case Attempt(_, _) =>
    case Lose(id) => LoseNothing(s, id);
  }

  lemma PhaseJoined(s: System, m: nat, hi: Role, g: nat, c: nat, first: Inbox)
    ensures Phase(s, m, hi, g, c, first) <==>
      || (c == 0 && Apart(s, m, hi) && Destination(s, m, Other(hi)) == g)
      || (g == m && Joined(s, m, c, first))
  {
    hide Apart, Level, LegOne, LegTwo, Rotated, Destination;
  }

  lemma PhaseDelivery(s: System, e: Step, m: nat, hi: Role, g: nat, c: nat, first: Inbox)
    requires Phase(s, m, hi, g, c, first) && e.Deliver? && Enabled(s, e)
    ensures Potential(Apply(s, e), m, hi) <= Potential(s, m, hi) - 1
    ensures var p, f := Get(s, e.r), Head(s, e.r);
      && p.role == e.r && (f.Hello? ==> p.recv.Derived? && f.gen <= m)
      && (Apart(s, m, hi) && f.Leg? ==> e.r == Other(hi))
      && (Joined(s, m, c, first) && f.Leg? ==>
            (LegOne(s, m, c, first) && e.r.Responder?) || (LegTwo(s, m, c, first) && e.r.Offerer?))
  {
    HeadKnown(s, e, m, hi, g, c, first);
    PhaseJoined(s, m, hi, g, c, first);
    hide Apart, Phase, Joined, LegOne, LegTwo, NetWeight, Apply, Destination;
    if Joined(s, m, c, first) {
      JoinedLive(s, m, c, first);
    }
    if Apart(s, m, hi) {
      ApartOwn(s, m, hi);
    }
    DeliverPotential(s, e, m, hi);
  }

  /** Below `m` and astray. */
  predicate Stranded(s: System, m: nat, lo: Role) { Get(s, lo).own < m && Astray(s, lo) }

  lemma CalmStep(s: System, e: Step, m: nat, hi: Role, g: nat, c: nat, first: Inbox) returns (first': Inbox)
    requires Phase(s, m, hi, g, c, first) && Enabled(s, e) && Calm(s, e, m, hi)
    ensures Phase(Apply(s, e), m, hi, g, StartsAfter(s, e, m, c), first')
    ensures Potential(Apply(s, e), m, hi) <= Potential(s, m, hi) + (if e.Say? then 1 else if e.Deliver? then -1 else 0)
    ensures var s', lo := Apply(s, e), Other(hi);
      && (Stranded(s', m, lo) <==> Stranded(s, m, lo) && !(Served(e, lo) && !SpentAt(s, lo)))
      && (Stranded(s', m, lo) ==> SpentAt(s', lo) == SpentAt(s, lo))
  {
    hide Apply, Apart, Joined, Phase, Astray, Destination, SpentAt, Level, Calm, Initiates, LegOne, LegTwo, Potential;
    var s' := Apply(s, e);
    first' := first;
    CalmPotential(s, e, m, hi, g, c, first);
    PhaseJoined(s, m, hi, g, c, first);
    if e.Deliver? {
      PhaseDelivery(s, e, m, hi, g, c, first);
    }
    if c == 0 && Apart(s, m, hi) && Destination(s, m, Other(hi)) == g {
      ApartOwn(s, m, hi);
      ApartStep(s, e, m, hi);
      if Level(s', m) {
        LevelJoins(s', m, first);
        JoinedLive(s', m, 0, first);
      }
      if Apart(s', m, hi) {
        ApartOwn(s', m, hi);
      }
    } else {
      JoinedLive(s, m, c, first);
      first' := JoinedStep(s, e, m, hi, c, first);
      JoinedLive(s', m, StartsAfter(s, e, m, c), first');
    }
    PhaseJoined(s', m, hi, g, StartsAfter(s, e, m, c), first');
  }

  lemma LevelJoins(s: System, m: nat, first: Inbox)
    requires Level(s, m)
    ensures Joined(s, m, 0, first)
  {
    hide Level;
  }

  lemma CalmPotential(s: System, e: Step, m: nat, hi: Role, g: nat, c: nat, first: Inbox)
    requires Phase(s, m, hi, g, c, first) && Enabled(s, e) && Calm(s, e, m, hi)
    ensures Potential(Apply(s, e), m, hi) <= Potential(s, m, hi) + (if e.Say? then 1 else if e.Deliver? then -1 else 0)
  {
    PhaseJoined(s, m, hi, g, c, first);
    hide Apply, Apart, Joined, Phase, Astray, Destination, Level, NetWeight, LegOne, LegTwo, Rotated;
    match e
    case Deliver(_, _) => PhaseDelivery(s, e, m, hi, g, c, first);
    case Say(_, _) => SayPotential(s, e, m, hi);
    case Attempt(_, _) =>
      if Apart(s, m, hi) {
        ApartOwn(s, m, hi);
        AttemptPotential(s, e, m, hi);
      } else {
        JoinedLive(s, m, c, first);
      }
    case Lose(_) => LosePotential(s, e, m, hi);
  }

  function Deliveries(es: seq<Step>): nat {
    if es == [] then 0 else (if es[0].Deliver? then 1 else 0) + Deliveries(es[1..])
  }

  function Says(es: seq<Step>): nat {
    if es == [] then 0 else (if es[0].Say? then 1 else 0) + Says(es[1..])
  }

  /**
   Over every calm run the phase, the count of rotations started and where the lower side is going are kept,
   and it is astray at the end exactly when it was at the start and did not come back.
   */
  lemma {:induction false} CalmRun(s: System, es: seq<Step>, m: nat, hi: Role, g: nat, c: nat, first: Inbox)
    returns (first': Inbox)
    requires Phase(s, m, hi, g, c, first) && Valid(s, es) && AllCalm(s, es, m, hi)
    ensures Phase(Exec(s, es), m, hi, g, Starts(s, es, m, c), first')
    ensures Potential(Exec(s, es), m, hi) <= Potential(s, m, hi) + Says(es) - Deliveries(es)
    ensures Stranded(Exec(s, es), m, Other(hi)) <==> Stranded(s, m, Other(hi)) && !Returns(s, es, Other(hi))
    decreases |es|
  {
    hide Phase, Potential, Apply, Enabled, Calm, StartsAfter, Stranded, SpentAt, Served;
    first' := first;
    if es != [] {
      first' := CalmStep(s, es[0], m, hi, g, c, first);
      first' := CalmRun(Apply(s, es[0]), es[1..], m, hi, g, StartsAfter(s, es[0], m, c), first');
    }
  }

  /** Both generations equal, each side sending to the inbox the other receives on. */
  predicate Matched(s: System, m: nat) {
    && s.offerer.own == s.responder.own == m
    && s.offerer.send == s.responder.recv && s.responder.send == s.offerer.recv
  }

  predicate Drained(s: System) {
    forall r :: Get(s, r).recv in s.net.boxes ==> s.net.boxes[Get(s, r).recv] == []
  }

  lemma DrainedMeans(s: System, m: nat, hi: Role, g: nat, c: nat, first: Inbox)
    requires Phase(s, m, hi, g, c, first) && Drained(s)
    ensures Matched(s, m) <==> g == m && !Stranded(s, m, Other(hi)) && c <= 1
    ensures Matched(s, m) ==> s.offerer.recv in s.net.boxes && s.responder.recv in s.net.boxes
  {
    assert Get(s, Offerer) == s.offerer && Get(s, Responder) == s.responder;
    hide In, MintFree, HellosUpTo, Legs, SeenBelow, Reach, CopiesAt;
  }

  /**
   Convergence. However a calm run interleaves that starts with one side ahead at `m` and the other anywhere
   below, its deliveries are bounded, and when nothing is left to read both sides are at `m` and send to the
   live inbox the other receives on if and only if what is queued at the start leads the lower side to `m`
   (if it is astray, by way of an attempt that is granted before it is exhausted) and the offerer starts at
   most one rotation.
   */
  lemma Converges(s: System, es: seq<Step>, m: nat, hi: Role)
    requires Apart(s, m, hi) && Valid(s, es) && AllCalm(s, es, m, hi)
    ensures Drained(Exec(s, es)) ==>
      (Matched(Exec(s, es), m) <==> Arrives(s, es, m, Other(hi)) && Starts(s, es, m, 0) <= 1)
    ensures Deliveries(es) <= Potential(s, m, hi) + Says(es)
  {
    var g := Destination(s, m, Other(hi));
    ApartOwn(s, m, hi);
    hide Apart, Level, NetWeight, Drained, Matched, Destination, Astray, Returns;
    var first := CalmRun(s, es, m, hi, g, 0, s.offerer.recv);
    var t, c := Exec(s, es), Starts(s, es, m, 0);
    if Drained(t) {
      DrainedMeans(t, m, hi, g, c, first);
    }
    PotentialNonNegative(t, m, hi, g, c, first);
  }

  /** So from level generations, where nothing is left to arrive. */
  lemma LevelConverges(s: System, es: seq<Step>, m: nat, hi: Role)
    requires Level(s, m) && Valid(s, es) && AllCalm(s, es, m, hi)
    ensures Drained(Exec(s, es)) ==> (Matched(Exec(s, es), m) <==> Starts(s, es, m, 0) <= 1)
    ensures Deliveries(es) <= Potential(s, m, hi) + Says(es)
  {
    LevelJoins(s, m, s.offerer.recv);
    JoinedLive(s, m, 0, s.offerer.recv);
    hide Apart, Level, NetWeight, Drained, Matched, Destination, Astray, Returns, Joined;
    var first := CalmRun(s, es, m, hi, m, 0, s.offerer.recv);
    var t, c := Exec(s, es), Starts(s, es, m, 0);
    if Drained(t) {
      DrainedMeans(t, m, hi, m, c, first);
    }
    PotentialNonNegative(t, m, hi, m, c, first);
  }

  lemma PotentialNonNegative(s: System, m: nat, hi: Role, g: nat, c: nat, first: Inbox)
    requires Phase(s, m, hi, g, c, first)
    ensures Potential(s, m, hi) >= 0
  {
    PhaseOwn(s, m, hi, g, c, first);
    hide Phase, Apart;
    var w := map id | id in s.net.boxes :: QueueWeight(id, s.net.boxes[id], m, hi) as int;
    SumMapNonNegative(w);
  }

  // One announcement, one rotation.

  /** Announcements of `m` left for the offerer and rotations started make at most one. */
  ghost predicate OneCopy(s: System, m: nat, hi: Role, c: nat) {
    var d := Derived(Offerer, m);
    if Get(s, Other(hi)).own < m then c == 0 && CopiesAt(s.net, d, m) <= (if hi.Offerer? then 0 else 1)
    else c <= 1 && (s.offerer.recv == d ==> c + CopiesAt(s.net, d, m) <= 1)
  }

  lemma DeliverCopies(s: System, e: Step, m: nat)
    requires e.Deliver? && Enabled(s, e) && MintFree(s.net) && Get(s, e.r).role == e.r
    ensures var d, p, f := Derived(Offerer, m), Get(s, e.r), Head(s, e.r);
      CopiesAt(Apply(s, e).net, d, m) <= CopiesAt(s.net, d, m)
        - (if p.recv == d && f.Hello? && f.gen == m then 1 else 0)
        + (if e.r.Responder? && f.Hello? && p.own < f.gen == m == Get(Apply(s, e), e.r).own then 1 else 0)
  {
    var d, p, f, s' := Derived(Offerer, m), Get(s, e.r), Head(s, e.r), Apply(s, e);
    var net := Popped(s.net, p.recv);
    DeliverDid(s, e);
    PopViews(s.net, p.recv);
    assert f == s.net.boxes[p.recv][0];
    var q := QueueAt(net, d);
    assert Change(p, Get(s', e.r), f, net, s'.net.nonces, d, q, QueueAt(s'.net, d));
    AppendViews(q, Leg(Minted(net.minted)), m);
    if f.Hello? {
      AppendViews(q, Hello(f.gen, net.nonces), m);
    }
    hide Apply, Popped, HandleIncoming, QueueAt, SameAbove, FirstLeg, In;
  }

  lemma PhaseOwn(s: System, m: nat, hi: Role, g: nat, c: nat, first: Inbox)
    requires Phase(s, m, hi, g, c, first)
    ensures MintFree(s.net) && s.offerer.role.Offerer? && s.responder.role.Responder?
    ensures Get(s, hi).own == m && Get(s, Other(hi)).own <= m
    ensures Get(s, Other(hi)).own < m ==> c == 0 && Apart(s, m, hi)
    ensures Get(s, Other(hi)).own == m ==> s.offerer.recv == Derived(Offerer, m) || s.offerer.recv.Minted?
  {
    hide In, MintFree, HellosUpTo, Legs, SeenBelow, Reach, CopiesAt, QueueAt, FirstLeg;
  }

  lemma CopyDeliver(s: System, e: Step, m: nat, hi: Role, g: nat, c: nat, first: Inbox, first': Inbox)
    requires Phase(s, m, hi, g, c, first) && OneCopy(s, m, hi, c) && e.Deliver? && Enabled(s, e)
    requires Phase(Apply(s, e), m, hi, g, StartsAfter(s, e, m, c), first')
    ensures OneCopy(Apply(s, e), m, hi, StartsAfter(s, e, m, c))
  {
    PhaseOwn(s, m, hi, g, c, first);
    PhaseOwn(Apply(s, e), m, hi, g, StartsAfter(s, e, m, c), first');
    HeadKnown(s, e, m, hi, g, c, first);
    DeliverDid(s, e);
    DeliverCopies(s, e, m);
    RecvMoves(s, e);
    hide Phase, Apply, MintFree, CopiesAt, Apart, Enabled;
  }

  /**
   A delivery leaves the offerer on its inbox, moves it to a higher generation, or to the fresh inbox it
   waits for.
   */
  lemma RecvMoves(s: System, e: Step)
    requires e.Deliver? && Enabled(s, e)
    ensures var p, p' := s.offerer, Apply(s, e).offerer;
      p'.recv == p.recv || p.own < p'.own || Head(s, e.r).Leg?
  {
    hide Probe, PutBox, Post, Mint, Drop, OutboundWindow, MarkSeen, Popped;
  }

  lemma CopyAttempt(s: System, e: Step, m: nat, hi: Role)
    requires Apart(s, m, hi) && OneCopy(s, m, hi, 0) && e.Attempt? && e.r == Other(hi) && Enabled(s, e)
    ensures OneCopy(Apply(s, e), m, hi, 0)
  {
    var l := Get(s, e.r);
    if !Exhausted(l) && e.a.ownPut {
      ApartRoles(s, m, hi);
      AttemptEnters(s, e.r, e.a);
      EntersViews(s, s.net, Apply(s, e), e.r, l.own + 1, m);
      hide In, CopiesAt, QueueAt, Base, Legs, Apply, SameAbove, Grown;
    } else {
      assert Apply(s, e) == s;
    }
  }

  lemma CopyStep(s: System, e: Step, m: nat, hi: Role, g: nat, c: nat, first: Inbox, first': Inbox)
    requires Phase(s, m, hi, g, c, first) && OneCopy(s, m, hi, c) && Enabled(s, e) && Calm(s, e, m, hi)
    requires Phase(Apply(s, e), m, hi, g, StartsAfter(s, e, m, c), first')
    ensures OneCopy(Apply(s, e), m, hi, StartsAfter(s, e, m, c))
  {
    PhaseJoined(s, m, hi, g, c, first);
    hide Phase, Apart, Joined;
    match e
    case Deliver(_, _) => CopyDeliver(s, e, m, hi, g, c, first, first');
    case Say(_, _) =>
      SayViews(s, e);
      SayDid(s, e.r, e.text);
      hide Apply, CopiesAt;
    case Attempt(_, _) =>
      if Apart(s, m, hi) {
        PhaseOwn(s, m, hi, g, c, first);
        ApartOwn(s, m, hi);
        CopyAttempt(s, e, m, hi);
      } else {
        JoinedLive(s, m, c, first);
      }
    case Lose(id) =>
      DropDid(s.net, id);
  }

  lemma {:induction false} CopyRun(s: System, es: seq<Step>, m: nat, hi: Role, g: nat, c: nat, first: Inbox)
    requires Phase(s, m, hi, g, c, first) && OneCopy(s, m, hi, c) && Valid(s, es) && AllCalm(s, es, m, hi)
    ensures Starts(s, es, m, c) <= 1
    decreases |es|
  {
    if es != [] {
      hide Phase, Apply, Enabled, Calm, StartsAfter, OneCopy;
      var first' := CalmStep(s, es[0], m, hi, g, c, first);
      CopyStep(s, es[0], m, hi, g, c, first, first');
      CopyRun(Apply(s, es[0]), es[1..], m, hi, g, StartsAfter(s, es[0], m, c), first');
    }
  }

  /** With at most one announcement of `m` left for the offerer, arriving decides alone. */
  lemma ConvergesOnce(s: System, es: seq<Step>, m: nat, hi: Role)
    requires Apart(s, m, hi) && OneCopy(s, m, hi, 0) && Valid(s, es) && AllCalm(s, es, m, hi)
    ensures Drained(Exec(s, es)) ==> (Matched(Exec(s, es), m) <==> Arrives(s, es, m, Other(hi)))
    ensures Deliveries(es) <= Potential(s, m, hi) + Says(es)
  {
    ApartOwn(s, m, hi);
    hide Apart, Level, NetWeight, Drained, Matched, Arrives, OneCopy;
    Converges(s, es, m, hi);
    CopyRun(s, es, m, hi, Destination(s, m, Other(hi)), 0, s.offerer.recv);
  }

  lemma LevelConvergesOnce(s: System, es: seq<Step>, m: nat, hi: Role)
    requires Level(s, m) && OneCopy(s, m, hi, 0) && Valid(s, es) && AllCalm(s, es, m, hi)
    ensures Drained(Exec(s, es)) ==> Matched(Exec(s, es), m)
    ensures Deliveries(es) <= Potential(s, m, hi) + Says(es)
  {
    hide Apart, Level, NetWeight, Drained, Matched, OneCopy;
    LevelConverges(s, es, m, hi);
    CopyRun(s, es, m, hi, m, 0, s.offerer.recv);
  }
}
