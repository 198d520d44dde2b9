/**
 What queues hold and what one handler run of Recovery does to them: every queue keeps its order, and a
 handler appends at most one frame to one of the other side's derived inboxes, or deletes one inbox.
 */
module Mail {
  import opened Bytes
  import opened Recovery

  /** A missing inbox reads as empty. */
  function QueueAt(net: Net, id: Inbox): seq<Frame> { if id in net.boxes then net.boxes[id] else [] }

  predicate In(net: Net, id: Inbox, f: Frame) { f in QueueAt(net, id) }

  ghost predicate MintFree(net: Net) {
    forall k: nat :: k >= net.minted ==> Minted(k) !in net.boxes
  }

  /** How many hellos of generation `g` are queued. */
  function Copies(q: seq<Frame>, g: nat): nat {
    if q == [] then 0 else (if q[0].Hello? && q[0].gen == g then 1 else 0) + Copies(q[1..], g)
  }

  function CopiesAt(net: Net, id: Inbox, g: nat): nat { Copies(QueueAt(net, id), g) }

  /** The first generation above `k` announced in a queue. */
  function FirstAbove(q: seq<Frame>, k: nat): Option<nat> {
    if q == [] then None else if q[0].Hello? && q[0].gen > k then Some(q[0].gen) else FirstAbove(q[1..], k)
  }

  function FirstLeg(q: seq<Frame>): Option<Inbox> {
    if q == [] then None else if q[0].Leg? then Some(q[0].inbox) else FirstLeg(q[1..])
  }

  /** A leg stands in the queue before any announcement above `k`. */
  predicate LegFirst(q: seq<Frame>, k: nat) {
    q != [] && (q[0].Leg? || (!(q[0].Hello? && q[0].gen > k) && LegFirst(q[1..], k)))
  }

  lemma {:induction false} AppendViews(q: seq<Frame>, f: Frame, g: nat)
    ensures Copies(q + [f], g) == Copies(q, g) + (if f.Hello? && f.gen == g then 1 else 0)
    ensures FirstAbove(q + [f], g) ==
      if FirstAbove(q, g).Some? then FirstAbove(q, g) else if f.Hello? && f.gen > g then Some(f.gen) else None
    ensures FirstLeg(q + [f]) == if FirstLeg(q).Some? then FirstLeg(q) else if f.Leg? then Some(f.inbox) else None
    ensures LegFirst(q + [f], g) == (LegFirst(q, g) || (f.Leg? && FirstAbove(q, g).None?))
  {
    if q != [] {
      assert (q + [f])[1..] == q[1..] + [f];
      AppendViews(q[1..], f, g);
    }
  }

  lemma {:induction false} ViewsSound(q: seq<Frame>, g: nat)
    ensures Copies(q, g) == 0 <==> forall f :: f in q ==> !(f.Hello? && f.gen == g)
    ensures FirstAbove(q, g).Some? ==>
      FirstAbove(q, g).value > g && exists f :: f in q && f.Hello? && f.gen == FirstAbove(q, g).value
    ensures FirstAbove(q, g).None? <==> forall f :: f in q ==> !(f.Hello? && f.gen > g)
    ensures FirstLeg(q).Some? ==> Leg(FirstLeg(q).value) in q
    ensures FirstLeg(q).None? <==> forall f :: f in q ==> !f.Leg?
    ensures LegFirst(q, g) ==> FirstLeg(q).Some?
  {
    if q != [] {
      assert q == [q[0]] + q[1..];
      ViewsSound(q[1..], g);
    }
  }

  /** Where a side listening on the derived inbox of `k` ends up by following announcements, up to `m`. */
  function Reach(net: Net, lo: Role, k: nat, m: nat): nat
    decreases if k < m then m - k else 0
  {
    if k >= m then k
    else
      match FirstAbove(QueueAt(net, Derived(lo, k)), k)
      case None => k
      case Some(g) => if g <= k then k else Reach(net, lo, g, m)
  }

  /** From `from` up, the derived inboxes of `lo` announce the same. */
  ghost predicate SameAbove(net: Net, net': Net, lo: Role, from: nat) {
    forall j: nat :: j >= from ==> AboveAt(net', lo, j) == AboveAt(net, lo, j)
  }

  function AboveAt(net: Net, lo: Role, j: nat): Option<nat> { FirstAbove(QueueAt(net, Derived(lo, j)), j) }

  lemma {:induction false} ReachSame(net: Net, net': Net, lo: Role, k: nat, m: nat)
    requires SameAbove(net, net', lo, k)
    ensures Reach(net', lo, k, m) == Reach(net, lo, k, m)
    decreases if k < m then m - k else 0
  {
    if k < m {
      assert AboveAt(net', lo, k) == AboveAt(net, lo, k);
      match AboveAt(net, lo, k)
      case None =>
      case Some(g) => if g > k { ReachSame(net, net', lo, g, m); }
    }
  }

  predicate HelloOk(b: Inbox, f: Frame, m: nat) { f.Hello? ==> b.Derived? && f.gen <= m }

  ghost predicate HellosUpTo(net: Net, m: nat) {
    forall b, f :: In(net, b, f) ==> HelloOk(b, f, m)
  }

  /** A probe that reached every inbox on the way leads all the way. */
  lemma {:induction false} FullProbeReaches(net: Net, lo: Role, k: nat, m: nat, n: nat)
    requires HellosUpTo(net, m) && k <= m
    requires forall j: nat :: k <= j < m ==> In(net, Derived(lo, j), Hello(m, n))
    ensures Reach(net, lo, k, m) == m
    decreases m - k
  {
    if k < m {
      var q := QueueAt(net, Derived(lo, k));
      ViewsSound(q, k);
      assert In(net, Derived(lo, k), Hello(m, n));
      var f :| f in q && f.Hello? && f.gen == FirstAbove(q, k).value;
      assert In(net, Derived(lo, k), f);
      assert HelloOk(Derived(lo, k), f, m);
      FullProbeReaches(net, lo, f.gen, m, n);
    }
  }

  /** It is enough that the inbox read now holds the announcement, and that every lower one it holds leads on. */
  lemma ProbeReaches(net: Net, lo: Role, k: nat, m: nat, n: nat)
    requires HellosUpTo(net, m) && k < m && In(net, Derived(lo, k), Hello(m, n))
    requires forall f :: In(net, Derived(lo, k), f) && f.Hello? && k < f.gen < m ==> Reach(net, lo, f.gen, m) == m
    ensures Reach(net, lo, k, m) == m
  {
    var q := QueueAt(net, Derived(lo, k));
    ViewsSound(q, k);
    var f :| f in q && f.Hello? && f.gen == FirstAbove(q, k).value;
    assert In(net, Derived(lo, k), f) && HelloOk(Derived(lo, k), f, m);
  }

  // The relay operations.

  predicate Grown(b: Inbox, to: Role, hello: Frame, q: seq<Frame>, q': seq<Frame>) {
    q' == q || (b.Derived? && b.owner == to && q' == q + [hello])
  }

  ghost predicate ProbeDid(net: Net, net': Net, to: Role, hello: Frame) {
    && (forall b :: Grown(b, to, hello, QueueAt(net, b), QueueAt(net', b)))
    && net.boxes.Keys <= net'.boxes.Keys
    && (forall b :: b in net'.boxes && b !in net.boxes ==> b.Derived? && b.owner == to)
    && net'.minted == net.minted && net'.nonces == net.nonces && net'.chats == net.chats
  }

  predicate Distinct(gens: seq<nat>) { forall i, j :: 0 <= i < j < |gens| ==> gens[i] != gens[j] }

  lemma ProbeLegDid(net: Net, to: Role, k: nat, hello: Frame, answer: LegAnswer)
    requires hello.Hello?
    ensures var net' := ProbeLeg(net, to, k, hello, answer);
      && ProbeDid(net, net', to, hello)
      && (forall b :: b != Derived(to, k) ==> QueueAt(net', b) == QueueAt(net, b))
      && (answer == Delivered ==> QueueAt(net', Derived(to, k)) == QueueAt(net, Derived(to, k)) + [hello])
      && (answer != Refused ==> Derived(to, k) in net'.boxes)
  {}

  lemma {:induction false} ProbeAll(net: Net, to: Role, gens: seq<nat>, hello: Frame, legs: seq<LegAnswer>)
    requires hello.Hello? && Distinct(gens)
    ensures var net' := Probe(net, to, gens, hello, legs);
      && ProbeDid(net, net', to, hello)
      && (forall k: nat :: k !in gens ==> QueueAt(net', Derived(to, k)) == QueueAt(net, Derived(to, k)))
      && (forall i :: 0 <= i < |gens| && AnswerAt(legs, i).Delivered? ==> In(net', Derived(to, gens[i]), hello))
      && (forall i :: 0 <= i < |gens| && AnswerAt(legs, i) != Refused ==> Derived(to, gens[i]) in net'.boxes)
    decreases |gens|
  {
    if gens != [] {
      var rest := if legs == [] then [] else legs[1..];
      var net1 := ProbeLeg(net, to, gens[0], hello, AnswerAt(legs, 0));
      ProbeLegDid(net, to, gens[0], hello, AnswerAt(legs, 0));
      ProbeAll(net1, to, gens[1..], hello, rest);
      var net' := Probe(net1, to, gens[1..], hello, rest);
      hide ProbeLeg, Probe;
      assert gens[0] !in gens[1..];
      assert QueueAt(net', Derived(to, gens[0])) == QueueAt(net1, Derived(to, gens[0]));
      forall b
        ensures Grown(b, to, hello, QueueAt(net, b), QueueAt(net', b))
      {
        assert Grown(b, to, hello, QueueAt(net1, b), QueueAt(net', b));
        assert Grown(b, to, hello, QueueAt(net, b), QueueAt(net1, b));
      }
      forall i | 0 <= i < |gens|
        ensures AnswerAt(legs, i).Delivered? ==> In(net', Derived(to, gens[i]), hello)
        ensures AnswerAt(legs, i) != Refused ==> Derived(to, gens[i]) in net'.boxes
      {
        if i > 0 {
          assert gens[i] == gens[1..][i - 1] && AnswerAt(rest, i - 1) == AnswerAt(legs, i);
        }
      }
    }
  }

  /** Entering a generation: own inbox there, and at most one hello of it more in each of the other side's inboxes. */
  ghost predicate Entered(p: Party, net: Net, g: nat, r: Both) {
    && r.p == p.(recv := Derived(p.role, g), send := Derived(Other(p.role), g), own := g)
    && r.p.recv in r.net.boxes && net.boxes.Keys <= r.net.boxes.Keys
    && (forall b :: b in r.net.boxes && b !in net.boxes ==> b.Derived?)
    && (forall b :: Grown(b, Other(p.role), Hello(g, net.nonces), QueueAt(net, b), QueueAt(r.net, b)))
    && r.net.minted == net.minted && r.net.nonces == net.nonces + 1 && r.net.chats == net.chats
  }

  lemma EnterDid(p: Party, net: Net, g: nat, a: Answers)
    ensures var r := EnterGen(p, net, g, a); if a.ownPut then Entered(p, net, g, r) else r == Both(p, net)
    ensures a.ownPut ==> forall i :: 0 <= i < |OutboundWindow(p.peer)| && AnswerAt(a.legs, i).Delivered? ==>
      In(EnterGen(p, net, g, a).net, Derived(Other(p.role), OutboundWindow(p.peer)[i]), Hello(g, net.nonces))
    ensures a.ownPut ==> forall i :: 0 <= i < |OutboundWindow(p.peer)| && AnswerAt(a.legs, i) != Refused ==>
      Derived(Other(p.role), OutboundWindow(p.peer)[i]) in EnterGen(p, net, g, a).net.boxes
  {
    if a.ownPut {
      var net1 := PutBox(net, Derived(p.role, g));
      assert forall b :: QueueAt(net1, b) == QueueAt(net, b);
      ProbeAll(net1, Other(p.role), OutboundWindow(p.peer), Hello(g, net.nonces), a.legs);
      var net2 := Probe(net1, Other(p.role), OutboundWindow(p.peer), Hello(g, net.nonces), a.legs);
      var net3 := net2.(nonces := net.nonces + 1);
      assert forall b :: QueueAt(net3, b) == QueueAt(net2, b);
      hide Probe, OutboundWindow;
    }
  }

  // One handler run.

  /** The inbox a leg makes its reader delete. */
  function Given(p: Party): Inbox { if p.awaiting.Some? then p.awaiting.value.derived else p.recv }

  predicate Change(p: Party, p': Party, f: Frame, net: Net, nonces: nat, b: Inbox, q: seq<Frame>, q': seq<Frame>) {
    || q' == q
    || (f.Leg? && b == Given(p) && q' == [])
    || ((f.Leg? || (f.Hello? && f.gen == p.own)) && b == Derived(Other(p.role), p.own)
        && q' == q + [Leg(Minted(net.minted))])
    || (b.Derived? && b.owner == Other(p.role) && f.Hello? && p'.own == f.gen > p.own
        && p'.send == Derived(Other(p.role), f.gen) && net.nonces < nonces && q' == q + [Hello(f.gen, net.nonces)])
  }

  ghost predicate Handled(p: Party, net: Net, f: Frame, r: Both) {
    && (forall b :: Change(p, r.p, f, net, r.net.nonces, b, QueueAt(net, b), QueueAt(r.net, b)))
    && (forall b :: b in net.boxes && b !in r.net.boxes ==> f.Leg? && b == Given(p))
    && (forall b :: b in r.net.boxes && b !in net.boxes ==> b.Derived? || b == Minted(net.minted))
    && net.minted <= r.net.minted && net.nonces <= r.net.nonces && MintFree(r.net) && r.net.chats == net.chats
    && r.p.role == p.role && r.p.read == p.read + (if f.Chat? then [f.text] else [])
    && p.own <= r.p.own && p.peer <= r.p.peer
  }

  lemma RotationDid(net: Net, id: Inbox)
    requires MintFree(net)
    ensures var leg := Leg(Minted(net.minted)); var net2 := Post(Mint(net), id, leg);
      && MintFree(Mint(net)) && MintFree(net2)
      && Mint(net).boxes.Keys == net2.boxes.Keys == net.boxes.Keys + {Minted(net.minted)}
      && (forall b :: QueueAt(Mint(net), b) == QueueAt(net, b))
      && (forall b :: QueueAt(net2, b) == QueueAt(net, b) || (b == id && QueueAt(net2, b) == QueueAt(net, b) + [leg]))
      && (id in net.boxes ==> QueueAt(net2, id) == QueueAt(net, id) + [leg])
      && Mint(net).minted == net2.minted == net.minted + 1 && Mint(net).nonces == net2.nonces == net.nonces
      && Mint(net).chats == net2.chats == net.chats
  {}

  lemma DropDid(net: Net, id: Inbox)
    ensures Drop(net, id).boxes.Keys == net.boxes.Keys - {id}
    ensures forall b :: QueueAt(Drop(net, id), b) == if b == id then [] else QueueAt(net, b)
    ensures MintFree(net) ==> MintFree(Drop(net, id))
    ensures Drop(net, id).minted == net.minted && Drop(net, id).nonces == net.nonces && Drop(net, id).chats == net.chats
  {}

  lemma HelloDid(p: Party, net: Net, gen: nat, nonce: nat, a: Answers)
    requires MintFree(net)
    ensures Handled(p, net, Hello(gen, nonce), HandleHello(p, net, gen, nonce, a))
  {
    hide MarkSeen, EnterGen, Mint, Post;
    var (own, peer, bumped) := Converge(p.own, p.peer, gen);
    var p1 := p.(seen := MarkSeen(p.seen, gen, nonce), cycles := 0, own := own, peer := peer);
    EnterDid(p1, net, own, a);
    RotationDid(net, Derived(Other(p.role), own));
    hide QueueAt, In;
  }

  lemma LegDid(p: Party, net: Net, inbox: Inbox, a: Answers)
    requires MintFree(net)
    ensures Handled(p, net, Leg(inbox), HandleLeg(p, net, inbox, a))
  {
    hide Mint, Post, Drop;
    var id := Derived(Other(p.role), p.own);
    RotationDid(net, id);
    DropDid(net, Given(p));
    DropDid(Mint(net), Given(p));
    DropDid(Post(Mint(net), id, Leg(Minted(net.minted))), Given(p));
    hide QueueAt, MintFree;
  }

  /** Which inbox goes: the one a waiting party stored, or the one a party answering reads, if granted; no other. */
  lemma LegDeletes(p: Party, net: Net, inbox: Inbox, a: Answers)
    requires MintFree(net)
    ensures var net' := HandleLeg(p, net, inbox, a).net;
      && (Given(p) in net.boxes ==> (Given(p) in net'.boxes <==> !(a.delete && (p.awaiting.Some? || a.create))))
      && (forall b :: b != Given(p) && b in net.boxes ==> b in net'.boxes)
  {
    var id := Derived(Other(p.role), p.own);
    RotationDid(net, id);
    DropDid(net, Given(p));
    DropDid(Mint(net), Given(p));
    DropDid(Post(Mint(net), id, Leg(Minted(net.minted))), Given(p));
    hide QueueAt, Post, Mint, Drop;
  }

  lemma HandleDid(p: Party, net: Net, f: Frame, a: Answers)
    requires MintFree(net)
    ensures Handled(p, net, f, HandleIncoming(p, net, f, a))
  {
    match f
    case Chat(_) =>
    case Hello(gen, nonce) => HelloDid(p, net, gen, nonce, a);
    case Leg(inbox) => LegDid(p, net, inbox, a);
  }

  lemma PopDid(net: Net, id: Inbox)
    requires id in net.boxes && net.boxes[id] != []
    ensures Popped(net, id).boxes.Keys == net.boxes.Keys
    ensures forall b :: QueueAt(Popped(net, id), b) == if b == id then QueueAt(net, id)[1..] else QueueAt(net, b)
    ensures MintFree(net) ==> MintFree(Popped(net, id))
    ensures In(net, id, net.boxes[id][0])
    ensures forall f :: f in QueueAt(net, id)[1..] ==> f in QueueAt(net, id)
  {}

  lemma SayDid(s: System, r: Role, text: nat)
    ensures var s', to := Apply(s, Say(r, text)), Get(s, r).send;
      && s'.offerer == s.offerer && s'.responder == s.responder
      && s'.net.boxes.Keys == s.net.boxes.Keys && s'.net.minted == s.net.minted && s'.net.nonces == s.net.nonces
      && (forall b ::
            QueueAt(s'.net, b) == QueueAt(s.net, b) + (if b == to && to in s.net.boxes then [Chat(text)] else []))
  {}
}
