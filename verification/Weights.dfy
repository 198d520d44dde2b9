/**
 A potential of the recovery protocol below a target generation: every delivery lowers it and only chat
 raises it, so deliveries run out. Hellos and legs weigh what they may set off.
 */
module Weights {
  import opened Bytes
  import opened Sums
  import opened Recovery

  /** Whose legs of generation `k` are answered: the lower side's below `m`, the responder's at `m`. */
  function Answerer(k: nat, m: nat, hi: Role): Role { if k < m then Other(hi) else Responder }

  predicate AnswersAt(id: Inbox, m: nat, hi: Role) { id.Derived? && id.owner == Answerer(id.gen, m, hi) }

  /** A hello may start a rotation, and a leg may be answered by another. */
  function Weight(id: Inbox, f: Frame, m: nat, hi: Role): nat {
    match f
    case Hello(_, _) => 3
    case Leg(_) => if AnswersAt(id, m, hi) then 2 else 1
    case Chat(_) => 1
  }

  function QueueWeight(id: Inbox, q: seq<Frame>, m: nat, hi: Role): nat {
    if q == [] then 0 else Weight(id, q[0], m, hi) + QueueWeight(id, q[1..], m, hi)
  }

  ghost function NetWeight(net: Net, m: nat, hi: Role): int {
    SumMap(map id | id in net.boxes :: QueueWeight(id, net.boxes[id], m, hi) as int)
  }

  ghost function Potential(s: System, m: nat, hi: Role): int {
    NetWeight(s.net, m, hi) + 13 * (m - s.offerer.own) + 13 * (m - s.responder.own)
  }

  lemma {:induction false} QueueWeightAppend(id: Inbox, q: seq<Frame>, f: Frame, m: nat, hi: Role)
    ensures QueueWeight(id, q + [f], m, hi) == QueueWeight(id, q, m, hi) + Weight(id, f, m, hi)
  {
    if q != [] {
      assert (q + [f])[1..] == q[1..] + [f];
      QueueWeightAppend(id, q[1..], f, m, hi);
    }
  }

  lemma SetWeight(net: Net, net': Net, id: Inbox, q: seq<Frame>, m: nat, hi: Role)
    requires net'.boxes == net.boxes[id := q]
    ensures NetWeight(net', m, hi) ==
      NetWeight(net, m, hi) + QueueWeight(id, q, m, hi)
        - (if id in net.boxes then QueueWeight(id, net.boxes[id], m, hi) else 0)
  {
    var w := map b | b in net.boxes :: QueueWeight(b, net.boxes[b], m, hi) as int;
    SumMapUpdate(w, id, QueueWeight(id, q, m, hi));
    assert (map b | b in net'.boxes :: QueueWeight(b, net'.boxes[b], m, hi) as int) ==
      w[id := QueueWeight(id, q, m, hi)];
  }

  lemma DropWeight(net: Net, id: Inbox, m: nat, hi: Role)
    ensures NetWeight(Drop(net, id), m, hi) <= NetWeight(net, m, hi)
    ensures id in net.boxes ==> QueueWeight(id, net.boxes[id], m, hi) <= NetWeight(net, m, hi)
  {
    var w := map b | b in net.boxes :: QueueWeight(b, net.boxes[b], m, hi) as int;
    var net' := Drop(net, id);
    var w' := map b | b in net'.boxes :: QueueWeight(b, net'.boxes[b], m, hi) as int;
    assert w' == w - {id};
    if id in net.boxes {
      SumMapRemove(w, id);
      SumMapNonNegative(w');
    } else {
      assert w' == w;
    }
  }

  lemma PopWeight(net: Net, id: Inbox, m: nat, hi: Role)
    requires id in net.boxes && net.boxes[id] != []
    ensures NetWeight(Popped(net, id), m, hi) == NetWeight(net, m, hi) - Weight(id, net.boxes[id][0], m, hi)
  {
    SetWeight(net, Popped(net, id), id, net.boxes[id][1..], m, hi);
  }

  lemma PostWeight(net: Net, id: Inbox, f: Frame, m: nat, hi: Role)
    ensures NetWeight(Post(net, id, f), m, hi) <= NetWeight(net, m, hi) + Weight(id, f, m, hi)
  {
    if id in net.boxes {
      SetWeight(net, Post(net, id, f), id, net.boxes[id] + [f], m, hi);
      QueueWeightAppend(id, net.boxes[id], f, m, hi);
    }
  }

  lemma PutWeight(net: Net, id: Inbox, m: nat, hi: Role)
    ensures NetWeight(PutBox(net, id), m, hi) == NetWeight(net, m, hi)
  {
    if id !in net.boxes {
      SetWeight(net, PutBox(net, id), id, [], m, hi);
    }
  }

  lemma MintWeight(net: Net, m: nat, hi: Role)
    ensures NetWeight(Mint(net), m, hi) <= NetWeight(net, m, hi)
  {
    SetWeight(net, Mint(net), Minted(net.minted), [], m, hi);
  }

  lemma {:induction false} ProbeWeight(
    net: Net, to: Role, gens: seq<nat>, g: nat, n: nat, legs: seq<LegAnswer>, m: nat, hi: Role)
    ensures NetWeight(Probe(net, to, gens, Hello(g, n), legs), m, hi) <= NetWeight(net, m, hi) + 3 * |gens|
    decreases |gens|
  {
    hide NetWeight;
    if gens != [] {
      var id := Derived(to, gens[0]);
      PutWeight(net, id, m, hi);
      PostWeight(PutBox(net, id), id, Hello(g, n), m, hi);
      ProbeWeight(ProbeLeg(net, to, gens[0], Hello(g, n), AnswerAt(legs, 0)), to, gens[1..], g, n,
                  if legs == [] then [] else legs[1..], m, hi);
    }
  }

  lemma NoncesWeightless(net: Net, k: nat, m: nat, hi: Role)
    ensures NetWeight(net.(nonces := k), m, hi) == NetWeight(net, m, hi)
  {
    assert net.(nonces := k).boxes == net.boxes;
  }

  lemma EnterGenWeight(p: Party, net: Net, g: nat, a: Answers, m: nat, hi: Role)
    ensures NetWeight(EnterGen(p, net, g, a).net, m, hi) <= NetWeight(net, m, hi) + 12
  {
    hide NetWeight;
    if a.ownPut {
      PutWeight(net, Derived(p.role, g), m, hi);
      var net1 := PutBox(net, Derived(p.role, g));
      var net2 := Probe(net1, Other(p.role), OutboundWindow(p.peer), Hello(g, net.nonces), a.legs);
      ProbeWeight(net1, Other(p.role), OutboundWindow(p.peer), g, net.nonces, a.legs, m, hi);
      NoncesWeightless(net2, net.nonces + 1, m, hi);
    }
  }

  lemma RotationWeight(p: Party, net: Net, m: nat, hi: Role)
    ensures var id := Derived(Other(p.role), p.own);
      NetWeight(Post(Mint(net), id, Leg(Minted(net.minted))), m, hi) <=
        NetWeight(net, m, hi) + (if p.role == Answerer(p.own, m, hi) then 1 else 2)
  {
    hide NetWeight;
    MintWeight(net, m, hi);
    PostWeight(Mint(net), Derived(Other(p.role), p.own), Leg(Minted(net.minted)), m, hi);
  }

  /** What handling one frame adds at most, own generation included. */
  lemma HandleWeight(p: Party, net: Net, f: Frame, a: Answers, m: nat, hi: Role)
    requires p.own <= m && (f.Hello? ==> f.gen <= m)
      && (f.Leg? && p.awaiting.None? ==> p.role == Answerer(p.own, m, hi))
    ensures var r := HandleIncoming(p, net, f, a);
      && r.p.own <= m
      && NetWeight(r.net, m, hi) + 13 * (m - r.p.own) <= NetWeight(net, m, hi) + 13 * (m - p.own)
           + (if f.Hello? then 2 else if f.Leg? && p.awaiting.None? then 1 else 0)
  {
    hide NetWeight, MarkSeen, EnterGen;
    match f
    case Chat(_) =>
    case Hello(gen, nonce) =>
      if (gen, nonce) !in p.seen {
        var (own, peer, bumped) := Converge(p.own, p.peer, gen);
        var p1 := p.(seen := MarkSeen(p.seen, gen, nonce), cycles := 0, own := own, peer := peer);
        EnterGenWeight(p1, net, own, a, m, hi);
        EnterGenOwn(p1, net, own, a);
        MintWeight(net, m, hi);
        RotationWeight(p1, net, m, hi);
      }
    case Leg(inbox) =>
      MintWeight(net, m, hi);
      RotationWeight(p.(send := inbox), net, m, hi);
      HandleLegWeight(p, net, inbox, a, m, hi);
  }

  lemma EnterGenOwn(p: Party, net: Net, g: nat, a: Answers)
    requires g == p.own
    ensures EnterGen(p, net, g, a).p.own == g
  {}

  lemma HandleLegWeight(p: Party, net: Net, inbox: Inbox, a: Answers, m: nat, hi: Role)
    requires p.awaiting.None? ==> p.role == Answerer(p.own, m, hi)
    ensures NetWeight(HandleLeg(p, net, inbox, a).net, m, hi) <=
      NetWeight(net, m, hi) + (if p.awaiting.None? then 1 else 0)
  {
    hide NetWeight;
    if p.awaiting.Some? {
      DropWeight(net, p.awaiting.value.derived, m, hi);
    } else {
      MintWeight(net, m, hi);
      RotationWeight(p.(send := inbox), net, m, hi);
      DropWeight(Mint(net), p.recv, m, hi);
      DropWeight(Post(Mint(net), Derived(Other(p.role), p.own), Leg(Minted(net.minted))), p.recv, m, hi);
    }
  }

  lemma DeliverPotential(s: System, e: Step, m: nat, hi: Role)
    requires e.Deliver? && Enabled(s, e) && s.offerer.own <= m && s.responder.own <= m
    requires Head(s, e.r).Hello? ==> Head(s, e.r).gen <= m
    requires Head(s, e.r).Leg? && Get(s, e.r).awaiting.None? ==>
      Get(s, e.r).role == Answerer(Get(s, e.r).own, m, hi) && AnswersAt(Get(s, e.r).recv, m, hi)
    ensures var s' := Apply(s, e);
      && s'.offerer.own <= m && s'.responder.own <= m
      && Potential(s', m, hi) <= Potential(s, m, hi) - 1
  {
    var p, f := Get(s, e.r), Head(s, e.r);
    hide NetWeight, HandleIncoming, Popped;
    PopWeight(s.net, p.recv, m, hi);
    HandleWeight(p, Popped(s.net, p.recv), f, e.a, m, hi);
  }

  lemma SayPotential(s: System, e: Step, m: nat, hi: Role)
    requires e.Say?
    ensures Potential(Apply(s, e), m, hi) <= Potential(s, m, hi) + 1
  {
    hide NetWeight;
    PostWeight(s.net, Get(s, e.r).send, Chat(e.text), m, hi);
  }

  lemma AttemptPotential(s: System, e: Step, m: nat, hi: Role)
    requires e.Attempt? && Enabled(s, e) && Get(s, e.r).own < m <= U32_MAX
    ensures Potential(Apply(s, e), m, hi) <= Potential(s, m, hi)
  {
    hide NetWeight, Exhausted;
    EnterGenWeight(Get(s, e.r), s.net, SatInc(Get(s, e.r).own), e.a, m, hi);
    hide Probe, OutboundWindow, PutBox;
  }

  lemma LosePotential(s: System, e: Step, m: nat, hi: Role)
    requires e.Lose?
    ensures Potential(Apply(s, e), m, hi) <= Potential(s, m, hi)
  {
    hide NetWeight;
    DropWeight(s.net, e.id, m, hi);
  }
}
