/**
 The client engine's recovery handlers as they run: one conversation's stored row and in-memory maps,
 updated in place. Each method is held to the function of Recovery that the protocol proofs are about,
 and reports a re-subscription whenever the inbox it listens on has moved.
 */
module Engine {
  import opened Bytes
  import opened Recovery

  /** The answers left after the first `i` legs. */
  function LegsFrom(legs: seq<LegAnswer>, i: nat): seq<LegAnswer> { if i <= |legs| then legs[i..] else [] }

  class Conversation {
    const role: Role
    var own: nat
    var peer: nat
    var recv: Inbox
    var send: Inbox
    var cycles: nat
    var seen: seq<(nat, nat)>
    var awaiting: Option<Awaiting>
    var read: seq<nat>
    var net: Net

    function State(): Party
      reads this
    {
      Party(role, own, peer, recv, send, cycles, seen, awaiting, read)
    }

    function Now(): Both
      reads this
    {
      Both(State(), net)
    }

    constructor (p: Party, relay: Net)
      ensures Now() == Both(p, relay)
    {
      role, own, peer, recv, send := p.role, p.own, p.peer, p.recv, p.send;
      cycles, seen, awaiting, read, net := p.cycles, p.seen, p.awaiting, p.read, relay;
    }

    /** Remembers a hello and says whether it is new; the oldest entries leave a full ring. */
    method MarkHelloSeen(gen: nat, nonce: nat) returns (isNew: bool)
      requires |seen| <= RING
      modifies `seen
      ensures isNew <==> (gen, nonce) !in old(seen)
      ensures seen == MarkSeen(old(seen), gen, nonce) && |seen| <= 512
      ensures !isNew ==> seen == old(seen)
      ensures isNew ==> seen == (if |old(seen)| < 512 then old(seen) else old(seen)[1..]) + [(gen, nonce)]
    {
      if (gen, nonce) in seen {
        return false;
      }
      seen := seen + [(gen, nonce)];
      ghost var longer := seen;
      assert longer[|longer| - 1] == (gen, nonce);
      while |seen| > RING
        invariant |seen| <= |longer| <= RING + 1 && seen == longer[|longer| - |seen|..]
        invariant |longer| > RING ==> |seen| >= RING
        invariant |longer| <= RING ==> seen == longer
      {
        seen := seen[1..];
      }
      assert seen[|seen| - 1] == (gen, nonce);
      return true;
    }

    /** Creates each inbox of the window and leaves the hello in it, as far as the relay allows. */
    method ProbeWindow(to: Role, window: seq<nat>, hello: Frame, legs: seq<LegAnswer>)
      modifies `net
      ensures net == Probe(old(net), to, window, hello, legs) && net.nonces == old(net.nonces)
    {
      ghost var goal := Probe(net, to, window, hello, legs);
      assert window[0..] == window && LegsFrom(legs, 0) == legs;
      var i := 0;
      while i < |window|
        invariant 0 <= i <= |window|
        invariant Probe(net, to, window[i..], hello, LegsFrom(legs, i)) == goal
        invariant net.nonces == old(net.nonces)
      {
        ghost var before, left := net, LegsFrom(legs, i);
        var answer := AnswerAt(legs, i);
        if answer != Refused {
          net := PutBox(net, Derived(to, window[i]));
          if answer == Delivered {
            net := Post(net, Derived(to, window[i]), hello);
          }
        }
        assert net == ProbeLeg(before, to, window[i], hello, AnswerAt(left, 0));
        assert window[i..][1..] == window[i + 1..];
        assert LegsFrom(legs, i + 1) == if left == [] then [] else left[1..];
        i := i + 1;
      }
      assert window[i..] == [];
    }

    method EnterRecoveryGen(g: nat, a: Answers) returns (entered: bool)
      modifies `recv, `send, `own, `net
      ensures Now() == EnterGen(old(State()), old(net), g, a)
      ensures entered == a.ownPut && (!entered ==> Now() == old(Now()))
    {
      if !a.ownPut {
        return false;
      }
      net := PutBox(net, Derived(role, g));
      recv := Derived(role, g);
      ProbeWindow(Other(role), OutboundWindow(peer), Hello(g, net.nonces), a.legs);
      net := net.(nonces := net.nonces + 1);
      send := Derived(Other(role), g);
      own := g;
      return true;
    }

    /** After a 404 on the own inbox. */
    method RecoverFromLoss(a: Answers) returns (moved: bool)
      modifies `recv, `send, `own, `net, `cycles
      ensures Now() == RecoverV2(old(State()), old(net), a)
      ensures !moved ==> Now() == old(Now())
      ensures moved <==> a.ownPut && old(cycles) < 3 && old(own) < old(peer) + 4 && old(peer) < old(own) + 4
    {
      if cycles >= PROBE_CYCLES || AbsDiff(own, peer) >= WINDOW {
        return false;
      }
      moved := EnterRecoveryGen(SatInc(own), a);
      if moved {
        cycles := cycles + 1;
      }
    }

    method StartRotation(a: Answers)
      modifies `awaiting, `net
      ensures Now() == InitiateRotation(old(State()), old(net), a)
    {
      if a.create {
        var fa := Minted(net.minted);
        net := Mint(net);
        if a.deposit {
          net := Post(net, Derived(Other(role), own), Leg(fa));
        }
        awaiting := Some(Awaiting(fa, Derived(role, own)));
      }
    }

    method HandleRecoveryHello(gen: nat, nonce: nat, a: Answers) returns (resubscribe: bool)
      requires |seen| <= RING
      modifies this
      ensures Now() == HandleHello(old(State()), old(net), gen, nonce, a) && |seen| <= RING
      ensures resubscribe <==> (gen, nonce) !in old(seen) && gen > old(own) && a.ownPut
      ensures recv == if resubscribe then Derived(role, gen) else old(recv)
    {
      var isNew := MarkHelloSeen(gen, nonce);
      if !isNew {
        return false;
      }
      cycles := 0;
      var bumped := gen > own;
      if gen > peer {
        peer := gen;
      }
      if bumped {
        own := gen;
        resubscribe := EnterRecoveryGen(own, a);
      } else {
        if gen == own && role == Offerer {
          StartRotation(a);
        }
        resubscribe := false;
      }
    }

    method HandleRotation(inbox: Inbox, a: Answers) returns (resubscribe: bool)
      modifies `send, `recv, `awaiting, `net
      ensures Now() == HandleLeg(old(State()), old(net), inbox, a)
      ensures resubscribe <==> old(awaiting).Some? || a.create
      ensures recv ==
        if old(awaiting).Some? then old(awaiting).value.fa else if a.create then Minted(old(net).minted) else old(recv)
    {
      var waiting := awaiting;
      awaiting := None;
      send := inbox;
      if waiting.Some? {
        recv := waiting.value.fa;
        if a.delete {
          net := Drop(net, waiting.value.derived);
        }
        return true;
      }
      var derived := recv;
      if !a.create {
        return false;
      }
      recv := Minted(net.minted);
      net := Mint(net);
      if a.deposit {
        net := Post(net, Derived(Other(role), own), Leg(recv));
      }
      if a.delete {
        net := Drop(net, derived);
      }
      return true;
    }

    /** One decrypted frame: chat is stored, a hello or a leg handled. */
    method HandleFrame(f: Frame, a: Answers) returns (resubscribe: bool)
      requires |seen| <= RING
      modifies this
      ensures Now() == HandleIncoming(old(State()), old(net), f, a) && |seen| <= RING
      ensures resubscribe <==>
        match f
        case Chat(_) => false
        case Hello(gen, nonce) => (gen, nonce) !in old(seen) && gen > old(own) && a.ownPut
        case Leg(_) => old(awaiting).Some? || a.create
      ensures !resubscribe ==> recv == old(recv)
    {
      match f
      case Chat(text) =>
        read := read + [text];
        resubscribe := false;
      case Hello(gen, nonce) =>
        resubscribe := HandleRecoveryHello(gen, nonce, a);
      case Leg(inbox) =>
        resubscribe := HandleRotation(inbox, a);
    }
  }
}
