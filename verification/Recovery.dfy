/**
 Derived-mailbox recovery as the two clients run it over one relay: what each handler does to a
 party's stored state and to the relay's mailboxes, and the steps that may interleave. The relay's
 answers to a handler's requests are inputs. HMAC is abstract: `Derived(role, g)` stands for the id
 derived for that owner and generation, and DerivedIds shows distinct ones never collide.
 */
module Recovery {
  import opened Bytes

  const WINDOW: nat := 4
  const PROBE_CYCLES: nat := 3
  const RING: nat := 512

  datatype Role = Offerer | Responder

  function Other(r: Role): Role { if r.Offerer? then Responder else Offerer }

  /** An inbox from pairing, an inbox at a derived id, or one the relay minted. */
  datatype Inbox = Paired(owner: Role) | Derived(owner: Role, gen: nat) | Minted(n: nat)

  /** What a decrypted envelope on a conversation inbox may carry. */
  datatype Frame = Hello(gen: nat, nonce: nat) | Leg(inbox: Inbox) | Chat(text: nat)

  datatype Awaiting = Awaiting(fa: Inbox, derived: Inbox)

  /** One side: stored generations and routes; in memory the cycle count, hello ring and rotation. */
  datatype Party = Party(
    role: Role, own: nat, peer: nat, recv: Inbox, send: Inbox,
    cycles: nat, seen: seq<(nat, nat)>, awaiting: Option<Awaiting>, read: seq<nat>)

  /** The relay's mailboxes, and per inbox the chat it ever accepted. */
  datatype Net = Net(boxes: map<Inbox, seq<Frame>>, minted: nat, nonces: nat, chats: map<Inbox, seq<nat>>)

  datatype LegAnswer = Refused | PutOnly | Delivered

  /** How the relay answers one handler run: PUT of the own inbox, each probe leg, mint, deposit, delete. */
  datatype Answers = Answers(ownPut: bool, legs: seq<LegAnswer>, create: bool, deposit: bool, delete: bool)

  datatype Both = Both(p: Party, net: Net)

  // The relay, as the clients see it.

  function PutBox(net: Net, id: Inbox): Net {
    if id in net.boxes then net else net.(boxes := net.boxes[id := []])
  }

  function ChatsAt(net: Net, id: Inbox): seq<nat> { if id in net.chats then net.chats[id] else [] }

  /** A deposit; an unknown inbox answers 404 and nothing changes. */
  function Post(net: Net, id: Inbox, f: Frame): Net {
    if id !in net.boxes then net
    else if f.Chat? then
      net.(boxes := net.boxes[id := net.boxes[id] + [f]], chats := net.chats[id := ChatsAt(net, id) + [f.text]])
    else net.(boxes := net.boxes[id := net.boxes[id] + [f]])
  }

  function Mint(net: Net): Net {
    net.(boxes := net.boxes[Minted(net.minted) := []], minted := net.minted + 1)
  }

  function Drop(net: Net, id: Inbox): Net { net.(boxes := net.boxes - {id}) }

  // Generations.

  function SatInc(g: nat): nat { if g < U32_MAX then g + 1 else U32_MAX }

  /** `peer .. peer.saturating_add(W)`. */
  function OutboundWindow(peer: nat): seq<nat> {
    var n := if peer + WINDOW <= U32_MAX then WINDOW else if peer <= U32_MAX then U32_MAX - peer else 0;
    seq(n, i requires 0 <= i < n => peer + i)
  }

  function AbsDiff(a: nat, b: nat): nat { if a >= b then a - b else b - a }

  predicate Exhausted(p: Party) { p.cycles >= PROBE_CYCLES || AbsDiff(p.own, p.peer) >= WINDOW }

  /** Adopt the larger generation; the flag says whether the own one moved. */
  function Converge(own: nat, peer: nat, reported: nat): (nat, nat, bool) {
    var peer' := if reported > peer then reported else peer;
    if reported > own then (reported, peer', true) else (own, peer', false)
  }

  /** The bounded ring of hellos already handled. */
  function MarkSeen(seen: seq<(nat, nat)>, gen: nat, nonce: nat): seq<(nat, nat)> {
    if (gen, nonce) in seen then seen
    else
      var longer := seen + [(gen, nonce)];
      if |longer| > RING then longer[|longer| - RING..] else longer
  }

  // Handlers.

  function AnswerAt(legs: seq<LegAnswer>, i: nat): LegAnswer { if i < |legs| then legs[i] else Refused }

  function ProbeLeg(net: Net, to: Role, k: nat, hello: Frame, answer: LegAnswer): Net {
    match answer
    case Refused => net
    case PutOnly => PutBox(net, Derived(to, k))
    case Delivered => Post(PutBox(net, Derived(to, k)), Derived(to, k), hello)
  }

  /** Create each inbox of the window and leave the hello in it. */
  function Probe(net: Net, to: Role, gens: seq<nat>, hello: Frame, legs: seq<LegAnswer>): Net
    decreases |gens|
  {
    if gens == [] then net
    else
      Probe(ProbeLeg(net, to, gens[0], hello, AnswerAt(legs, 0)), to, gens[1..], hello,
            if legs == [] then [] else legs[1..])
  }

  /** Routing at generation `g`: own inbox first, then the probe, then the send route and the stored numbers. */
  function EnterGen(p: Party, net: Net, g: nat, a: Answers): Both {
    if !a.ownPut then Both(p, net)
    else
      var net1 := PutBox(net, Derived(p.role, g));
      var hello := Hello(g, net.nonces);
      var net2 := Probe(net1, Other(p.role), OutboundWindow(p.peer), hello, a.legs);
      Both(p.(recv := Derived(p.role, g), send := Derived(Other(p.role), g), own := g),
           net2.(nonces := net.nonces + 1))
  }

  /** The same, dropped by a cancelled listener after some of the requests: the numbers are never stored. */
  function EnterGenCut(p: Party, net: Net, g: nat, put: bool, recvSet: bool, legs: seq<LegAnswer>): Both {
    if !put then Both(p, net)
    else
      var net1 := PutBox(net, Derived(p.role, g));
      if !recvSet then Both(p, net1)
      else
        var net2 := Probe(net1, Other(p.role), OutboundWindow(p.peer), Hello(g, net.nonces), legs);
        Both(p.(recv := Derived(p.role, g)), net2.(nonces := net.nonces + 1))
  }

  /** One recovery attempt after the own inbox answered 404. */
  function RecoverV2(p: Party, net: Net, a: Answers): Both {
    if Exhausted(p) || !a.ownPut then Both(p, net)
    else
      var r := EnterGen(p, net, SatInc(p.own), a);
      Both(r.p.(cycles := if p.cycles < U32_MAX then p.cycles + 1 else p.cycles), r.net)
  }

  function InitiateRotation(p: Party, net: Net, a: Answers): Both {
    if !a.create then Both(p, net)
    else
      var fa := Minted(net.minted);
      var net1 := Mint(net);
      var net2 := if a.deposit then Post(net1, Derived(Other(p.role), p.own), Leg(fa)) else net1;
      Both(p.(awaiting := Some(Awaiting(fa, Derived(p.role, p.own)))), net2)
  }

  function HandleHello(p: Party, net: Net, gen: nat, nonce: nat, a: Answers): Both {
    if (gen, nonce) in p.seen then Both(p, net)
    else
      var (own, peer, bumped) := Converge(p.own, p.peer, gen);
      var p1 := p.(seen := MarkSeen(p.seen, gen, nonce), cycles := 0, own := own, peer := peer);
      if bumped then EnterGen(p1, net, own, a)
      else if gen == own && p.role.Offerer? then InitiateRotation(p1, net, a)
      else Both(p1, net)
  }

  /** A rotation leg: the waiting offerer finishes the hand-off, anyone else answers it. */
  function HandleLeg(p: Party, net: Net, inbox: Inbox, a: Answers): Both {
    match p.awaiting
    case Some(w) =>
      Both(p.(send := inbox, recv := w.fa, awaiting := None), if a.delete then Drop(net, w.derived) else net)
    case None =>
      var p1 := p.(send := inbox);
      if !a.create then Both(p1, net)
      else
        var fb := Minted(net.minted);
        var net1 := Mint(net);
        var net2 := if a.deposit then Post(net1, Derived(Other(p.role), p.own), Leg(fb)) else net1;
        Both(p1.(recv := fb), if a.delete then Drop(net2, p.recv) else net2)
  }

  function HandleIncoming(p: Party, net: Net, f: Frame, a: Answers): Both {
    match f
    case Chat(text) => Both(p.(read := p.read + [text]), net)
    case Hello(gen, nonce) => HandleHello(p, net, gen, nonce, a)
    case Leg(inbox) => HandleLeg(p, net, inbox, a)
  }

  // The two parties together.

  datatype System = System(offerer: Party, responder: Party, net: Net)

  function Get(s: System, r: Role): Party { if r.Offerer? then s.offerer else s.responder }

  function Set(s: System, r: Role, b: Both): System {
    if r.Offerer? then s.(offerer := b.p, net := b.net) else s.(responder := b.p, net := b.net)
  }

  datatype Step =
    | Deliver(r: Role, a: Answers)
    | Attempt(r: Role, a: Answers)
    | CutAttempt(r: Role, put: bool, recvSet: bool, legs: seq<LegAnswer>)
    | Say(r: Role, text: nat)
    | Lose(id: Inbox)
    | Restart(r: Role)

  predicate Enabled(s: System, e: Step) {
    match e
    case Deliver(r, _) => Get(s, r).recv in s.net.boxes && s.net.boxes[Get(s, r).recv] != []
    case Attempt(r, _) => Get(s, r).recv !in s.net.boxes
    case CutAttempt(r, _, _, _) => Get(s, r).recv !in s.net.boxes && !Exhausted(Get(s, r))
    case Say(_, _) => true
    case Lose(_) => true
    case Restart(_) => true
  }

  function Head(s: System, r: Role): Frame
    requires Enabled(s, Deliver(r, Answers(false, [], false, false, false)))
  {
    s.net.boxes[Get(s, r).recv][0]
  }

  function Popped(net: Net, id: Inbox): Net
    requires id in net.boxes && net.boxes[id] != []
  {
    net.(boxes := net.boxes[id := net.boxes[id][1..]])
  }

  function Apply(s: System, e: Step): System
    requires Enabled(s, e)
  {
    match e
    case Deliver(r, a) =>
      Set(s, r, HandleIncoming(Get(s, r), Popped(s.net, Get(s, r).recv), Head(s, r), a))
    case Attempt(r, a) => Set(s, r, RecoverV2(Get(s, r), s.net, a))
    case CutAttempt(r, put, recvSet, legs) =>
      Set(s, r, EnterGenCut(Get(s, r), s.net, SatInc(Get(s, r).own), put, recvSet, legs))
    case Say(r, text) => s.(net := Post(s.net, Get(s, r).send, Chat(text)))
    case Lose(id) => s.(net := Drop(s.net, id))
    case Restart(r) => Set(s, r, Both(Get(s, r).(cycles := 0, seen := [], awaiting := None), s.net))
  }

  predicate Valid(s: System, es: seq<Step>)
    decreases |es|
  {
    es == [] || (Enabled(s, es[0]) && Valid(Apply(s, es[0]), es[1..]))
  }

  function Exec(s: System, es: seq<Step>): System
    requires Valid(s, es)
    decreases |es|
  {
    if es == [] then s else Exec(Apply(s, es[0]), es[1..])
  }

  /** After pairing: both generations 0, routes crossed over the two pairing inboxes. */
  function PairedParty(r: Role): Party {
    Party(r, 0, 0, Paired(r), Paired(Other(r)), 0, [], None, [])
  }

  const AfterPairing := System(
    PairedParty(Offerer), PairedParty(Responder),
    Net(map[Paired(Offerer) := [], Paired(Responder) := []], 0, 0, map[]))
}
