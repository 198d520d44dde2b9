/**
 One conversation inbox with any number of listeners. A listener that is being stopped may still be in the
 middle of a message when a new one is started; each behaves as in EndToEnd, over one ratchet and one store.
 Delivery is exactly once as long as no replay is settled while another listener has the message decrypted and
 not stored, which cannot happen if no listener is started before the others have ended.
 */
module Overlap {
  import opened Bytes
  import opened Base64Url
  import opened RelayTable
  import opened RelayWorld
  import opened RelayDelivery
  import E = EndToEnd

  /** `on` holds the running listeners. */
  datatype Links = Links(
    w: World, box: string, on: map<nat, E.Listener>, used: set<Chan>,
    ratchet: set<MsgId>, persisted: seq<MsgId>, acks: set<(Chan, MsgId)>)

  datatype Event = Relay(step: Step) | Act(id: nat, e: E.Event)

  /** The inbox as one of its listeners sees it. */
  function View(l: Links, x: E.Listener): E.Link {
    E.Link(l.w, l.box, x, l.used, l.ratchet, l.persisted, l.acks)
  }

  function ListenerOf(l: Links, id: nat): E.Listener { if id in l.on then l.on[id] else E.Off }

  /** `overlap` says whether a start may come before earlier listeners have ended. */
  ghost predicate Possible(cfg: Config, l: Links, v: Event, overlap: bool) {
    match v
    case Relay(s) => E.Possible(cfg, View(l, E.Off), E.Relay(s))
    case Act(id, e) =>
      && !e.Relay? && E.Possible(cfg, View(l, ListenerOf(l, id)), e)
      && (if e.Attach? then id !in l.on && (overlap || l.on == map[]) else id in l.on)
  }

  ghost function After(cfg: Config, l: Links, v: Event, overlap: bool): Links
    requires Possible(cfg, l, v, overlap)
  {
    match v
    case Relay(s) =>
      var k := E.After(cfg, View(l, E.Off), E.Relay(s));
      l.(w := k.w, acks := k.acks)
    case Act(id, e) =>
      var k := E.After(cfg, View(l, ListenerOf(l, id)), e);
      Links(k.w, k.box, if k.listener.Off? then l.on - {id} else l.on[id := k.listener],
            k.used, k.ratchet, k.persisted, k.acks)
  }

  ghost predicate Linked(cfg: Config, l: Links, l': Links, overlap: bool) {
    exists v :: Possible(cfg, l, v, overlap) && l' == After(cfg, l, v, overlap)
  }

  ghost predicate LinksRun(cfg: Config, trace: seq<Links>, overlap: bool) {
    && trace != [] && trace[0].on == map[] && E.Fresh(cfg, View(trace[0], E.Off))
    && forall i :: 0 <= i < |trace| - 1 ==> Linked(cfg, trace[i], trace[i + 1], overlap)
  }

  // Any number of listeners, none of which settles a message another holds decrypted and not stored.

  ghost predicate Holds(l: Links, id: nat, msg: MsgId) { id in l.on && l.on[id].Decrypted? && l.on[id].msg == msg }

  /** The frame listener `id` reads next. */
  ghost predicate ReadsNext(l: Links, id: nat, msg: MsgId) {
    && id in l.on && l.on[id].Reading? && l.on[id].chan in l.w.subs
    && var wire := l.w.subs[l.on[id].chan].wire; l.on[id].read < |wire| && wire[l.on[id].read] == msg
  }

  /** A replay is settled while another listener has that message decrypted and not stored. */
  ghost predicate Hasty(l: Links, v: Event) {
    v.Act? && v.e.Decrypt? && exists msg, j :: ReadsNext(l, v.id, msg) && Holds(l, j, msg)
  }

  ghost predicate Careful(cfg: Config, l: Links, l': Links) {
    exists v :: Possible(cfg, l, v, true) && !Hasty(l, v) && l' == After(cfg, l, v, true)
  }

  ghost predicate CarefulFrom(cfg: Config, trace: seq<Links>) {
    trace != [] && forall i :: 0 <= i < |trace| - 1 ==> Careful(cfg, trace[i], trace[i + 1])
  }

  ghost predicate CarefulRun(cfg: Config, trace: seq<Links>) {
    CarefulFrom(cfg, trace) && trace[0].on == map[] && E.Fresh(cfg, View(trace[0], E.Off))
  }

  /** A listener's view, without the ciphertexts the others hold. */
  ghost function Seen(l: Links, x: E.Listener): E.Link {
    View(l, x).(ratchet := (set id | id in l.persisted) + (if x.Decrypted? then {x.msg} else {}))
  }

  /** Each view is that of a sole listener; at most one message is held, by one listener. */
  ghost predicate LinksOk(cfg: Config, l: Links) {
    && E.LinkOk(cfg, Seen(l, E.Off))
    && (forall id :: id in l.on ==> !l.on[id].Off? && E.LinkOk(cfg, Seen(l, l.on[id])))
    && (forall i, j, x, y :: Holds(l, i, x) && Holds(l, j, y) ==> i == j)
    && (forall x :: x in l.ratchet <==> x in l.persisted || exists id :: Holds(l, id, x))
  }

  lemma RelayKeeps(cfg: Config, l: Links, s: Step)
    requires LinksOk(cfg, l) && Possible(cfg, l, Relay(s), true)
    ensures LinksOk(cfg, After(cfg, l, Relay(s), true))
  {
    hide E.LinkOk, Apply, Enabled, Popped, KeptBySweep;
    var l' := After(cfg, l, Relay(s), true);
    E.LinkStepOk(cfg, Seen(l, E.Off), E.Relay(s));
    forall id | id in l.on
      ensures E.LinkOk(cfg, Seen(l', l'.on[id]))
    {
      E.LinkStepOk(cfg, Seen(l, l.on[id]), E.Relay(s));
    }
    assert forall id, x :: Holds(l', id, x) <==> Holds(l, id, x);
  }

  /** What a step of another listener may do to a view: persist the next message, or send an ack of a persisted one. */
  predicate Grew(l: Links, l': Links, x: E.Listener) {
    && l'.w == l.w && l'.box == l.box
    && (|| l'.persisted == l.persisted
        || (!x.Decrypted? && |l'.persisted| == |l.persisted| + 1 && l'.persisted[..|l.persisted|] == l.persisted
            && E.IsPrefix(l'.persisted, LogOf(l.w.hist, l.box))))
    && forall p :: p in l'.acks ==> p in l.acks || p.1 in l.persisted
  }

  lemma OthersKeep(cfg: Config, l: Links, l': Links, x: E.Listener)
    requires E.LinkOk(cfg, Seen(l, x)) && Grew(l, l', x)
    ensures E.LinkOk(cfg, Seen(l', x))
  {
    hide RelayOk, Belongs, Fated, LogOf;
    assert forall id :: id in l.persisted ==> id in l'.persisted by {
      assert forall k :: 0 <= k < |l.persisted| ==> l'.persisted[k] == l.persisted[k];
    }
  }

  /** The held message is the next one accepted. */
  lemma HeldIsNext(cfg: Config, l: Links, h: nat, msg: MsgId)
    requires LinksOk(cfg, l) && Holds(l, h, msg)
    ensures msg in l.ratchet && msg !in l.persisted && E.IsPrefix(l.persisted + [msg], LogOf(l.w.hist, l.box))
  {
    hide RelayOk, Belongs, Fated, E.ListenerOk, LogOf;
    assert E.LinkOk(cfg, Seen(l, l.on[h])) && E.RatchetOk(Seen(l, l.on[h]));
  }

  lemma SameNext(a: seq<MsgId>, x: MsgId, y: MsgId, log: seq<MsgId>)
    requires E.IsPrefix(a + [x], log) && E.IsPrefix(a + [y], log)
    ensures x == y
  {
    assert log[|a|] == (a + [x])[|a|] && log[|a|] == (a + [y])[|a|];
  }

  /** While a message is held, no listener finds another that is new. */
  lemma NewMeansNoneHeld(cfg: Config, l: Links, id: nat, msg: MsgId)
    requires LinksOk(cfg, l) && ReadsNext(l, id, msg) && msg !in l.ratchet
    ensures forall j, x :: !Holds(l, j, x)
  {
    hide E.LinkOk, E.IsPrefix, LogOf;
    E.NextFrame(cfg, Seen(l, l.on[id]));
    forall j, x | Holds(l, j, x)
      ensures false
    {
      HeldIsNext(cfg, l, j, x);
      SameNext(l.persisted, x, msg, LogOf(l.w.hist, l.box));
    }
  }

  /** The acting listener does what a sole one would. */
  lemma ActsAlone(cfg: Config, l: Links, id: nat, e: E.Event)
    requires LinksOk(cfg, l) && Possible(cfg, l, Act(id, e), true) && !Hasty(l, Act(id, e))
    ensures var l', x := After(cfg, l, Act(id, e), true), ListenerOf(l, id);
      && E.Possible(cfg, Seen(l, x), e)
      && E.After(cfg, Seen(l, x), e) == Seen(l', ListenerOf(l', id))
      && E.LinkOk(cfg, Seen(l', ListenerOf(l', id)))
  {
    hide E.LinkOk;
    var l', x := After(cfg, l, Act(id, e), true), ListenerOf(l, id);
    assert E.LinkOk(cfg, Seen(l, x));
    if e.Decrypt? {
      var msg := l.w.subs[x.chan].wire[x.read];
      assert ReadsNext(l, id, msg);
      assert msg in l.ratchet <==> msg in l.persisted;
    } else if e.Persist? {
      assert (set m | m in l'.persisted) == (set m | m in l.persisted) + {x.msg};
    }
    E.LinkStepOk(cfg, Seen(l, x), e);
  }

  lemma ActGrows(cfg: Config, l: Links, id: nat, e: E.Event, x: E.Listener)
    requires LinksOk(cfg, l) && Possible(cfg, l, Act(id, e), true)
    requires e.Persist? ==> !x.Decrypted?
    ensures Grew(l, After(cfg, l, Act(id, e), true), x)
  {
    hide RelayOk, Belongs, Fated;
    if id in l.on {
      assert E.LinkOk(cfg, Seen(l, l.on[id]));
    }
  }

  lemma ActHolds(cfg: Config, l: Links, id: nat, e: E.Event)
    requires LinksOk(cfg, l) && Possible(cfg, l, Act(id, e), true) && !Hasty(l, Act(id, e))
    ensures var l' := After(cfg, l, Act(id, e), true);
      && (forall i, j, x, y :: Holds(l', i, x) && Holds(l', j, y) ==> i == j)
      && (forall x :: x in l'.ratchet <==> x in l'.persisted || exists j :: Holds(l', j, x))
  {
    hide E.LinkOk, RelayOk;
    var l', x := After(cfg, l, Act(id, e), true), ListenerOf(l, id);
    assert forall j, y :: j != id ==> (Holds(l', j, y) <==> Holds(l, j, y));
    if e.Decrypt? {
      var msg := l.w.subs[x.chan].wire[x.read];
      assert ReadsNext(l, id, msg);
      if msg !in l.ratchet {
        NewMeansNoneHeld(cfg, l, id, msg);
        assert Holds(l', id, msg);
      } else {
        assert forall y :: !Holds(l', id, y) && !Holds(l, id, y);
      }
    } else if e.Persist? {
      assert Holds(l, id, x.msg);
      assert forall j, y :: !Holds(l', j, y);
      assert forall y :: y in l'.persisted <==> y in l.persisted || y == x.msg;
    } else {
      assert forall y :: !Holds(l', id, y) && !Holds(l, id, y);
    }
  }

  lemma ActKeeps(cfg: Config, l: Links, id: nat, e: E.Event)
    requires LinksOk(cfg, l) && Possible(cfg, l, Act(id, e), true) && !Hasty(l, Act(id, e))
    ensures LinksOk(cfg, After(cfg, l, Act(id, e), true))
  {
    hide E.LinkOk, Hasty, Grew, E.Possible, E.After, Seen;
    var l' := After(cfg, l, Act(id, e), true);
    ActsAlone(cfg, l, id, e);
    ActHolds(cfg, l, id, e);
    ActGrows(cfg, l, id, e, E.Off);
    OthersKeep(cfg, l, l', E.Off);
    forall j | j in l.on && j != id
      ensures E.LinkOk(cfg, Seen(l', l.on[j]))
    {
      if e.Persist? {
        PersistsAlone(cfg, l, id, e, j);
      }
      ActGrows(cfg, l, id, e, l.on[j]);
      OthersKeep(cfg, l, l', l.on[j]);
    }
  }

  lemma PersistsAlone(cfg: Config, l: Links, id: nat, e: E.Event, j: nat)
    requires LinksOk(cfg, l) && Possible(cfg, l, Act(id, e), true) && e.Persist? && j in l.on && j != id
    ensures !l.on[j].Decrypted?
  {
    hide E.LinkOk;
    assert Holds(l, id, l.on[id].msg);
    assert l.on[j].Decrypted? ==> Holds(l, j, l.on[j].msg);
  }

  lemma CarefulStep(cfg: Config, l: Links, v: Event)
    requires LinksOk(cfg, l) && Possible(cfg, l, v, true) && !Hasty(l, v)
    ensures LinksOk(cfg, After(cfg, l, v, true))
  {
    hide LinksOk, After, Hasty;
    match v
    case Relay(s) => RelayKeeps(cfg, l, s);
    case Act(id, e) => ActKeeps(cfg, l, id, e);
  }

  lemma {:induction false} CarefulAlways(cfg: Config, trace: seq<Links>, n: nat)
    requires CarefulFrom(cfg, trace) && LinksOk(cfg, trace[0]) && n < |trace|
    ensures LinksOk(cfg, trace[n])
  {
    hide LinksOk, Possible, After, Hasty;
    if n > 0 {
      CarefulAlways(cfg, trace, n - 1);
      var l := trace[n - 1];
      assert Careful(cfg, l, trace[n - 1 + 1]);
      var v :| Possible(cfg, l, v, true) && !Hasty(l, v) && trace[n] == After(cfg, l, v, true);
      CarefulStep(cfg, l, v);
    }
  }

  lemma FreshLinks(cfg: Config, l: Links)
    requires l.on == map[] && E.Fresh(cfg, View(l, E.Off))
    ensures LinksOk(cfg, l)
  {
    hide E.LinkOk, E.Reachable;
    assert Seen(l, E.Off) == View(l, E.Off);
    E.FreshOk(cfg, View(l, E.Off));
  }

  lemma LinksGuarantee(cfg: Config, l: Links)
    requires LinksOk(cfg, l)
    ensures E.ExactlyOnce(View(l, E.Off))
  {
    hide E.LinkOk;
    E.LinkGuarantee(cfg, Seen(l, E.Off));
  }

  /** With any overlap of listeners: exactly once in every state of every run without a hasty settlement. */
  lemma CarefulIsExact(cfg: Config, trace: seq<Links>, n: nat)
    requires CarefulRun(cfg, trace) && n < |trace|
    ensures E.ExactlyOnce(View(trace[n], E.Off))
  {
    hide LinksOk, E.Fresh, E.ExactlyOnce;
    FreshLinks(cfg, trace[0]);
    CarefulAlways(cfg, trace, n);
    LinksGuarantee(cfg, trace[n]);
  }

  // What a hasty settlement leads to.

  lemma NextIsQueued(cfg: Config, k: E.Link, msg: MsgId)
    requires E.LinkOk(cfg, k) && msg !in k.persisted && E.IsPrefix(k.persisted + [msg], LogOf(k.w.hist, k.box))
    ensures InQueue(k.w.boxes, k.box, msg)
  {
    hide BytesOk, DeliveryOk, QueueOk, E.ListenerOk, E.RatchetOk;
    var n, log := |k.persisted|, LogOf(k.w.hist, k.box);
    assert log[n] == (k.persisted + [msg])[n];
    assert InLog(k.w.hist, k.box, n) && Belongs(k.w.hist, msg, k.box);
  }

  /** The relay reads acks from the connection of `v`'s listener. */
  ghost predicate TakesAcks(l: Links, v: Event) {
    && v.Act? && v.id in l.on && l.on[v.id].Reading? && l.on[v.id].chan in l.w.subs
    && var s := l.w.subs[l.on[v.id].chan]; s.box == l.box && (s.phase.Parked? || s.phase.Draining?)
  }

  lemma AckIsTaken(cfg: Config, w: World, chan: Chan, box: string, msg: MsgId)
    requires chan in w.subs && w.subs[chan].box == box && (w.subs[chan].phase.Parked? || w.subs[chan].phase.Draining?)
    requires InQueue(w.boxes, box, msg)
    ensures Enabled(w, Ack(chan, msg, w.clock))
    ensures var h, h' := w.hist, Apply(cfg, w, Ack(chan, msg, w.clock)).hist; msg in h'.acked && h'.log == h.log
  {
    hide MailboxIdShapeOk;
  }

  lemma AckedButNotStored(cfg: Config, k: E.Link, msg: MsgId)
    requires msg in k.w.hist.acked && msg !in k.persisted && E.IsPrefix(k.persisted + [msg], LogOf(k.w.hist, k.box))
    ensures !E.ExactlyOnce(k)
  {
    var n, log := |k.persisted|, LogOf(k.w.hist, k.box);
    assert log[n] == (k.persisted + [msg])[n];
  }

  /** The settlement and the ack it sends. */
  lemma SettlesAndAcks(cfg: Config, l: Links, v: Event, msg: MsgId) returns (l2: Links)
    requires Possible(cfg, l, v, true) && v.Act? && v.e.Decrypt? && ReadsNext(l, v.id, msg) && msg in l.ratchet
    ensures Careful(cfg, After(cfg, l, v, true), l2)
    ensures l2.w == l.w && l2.box == l.box && l2.persisted == l.persisted && (l.on[v.id].chan, msg) in l2.acks
  {
    var l1, x, send := After(cfg, l, v, true), l.on[v.id], Act(v.id, E.SendAck(true));
    assert l1 == l.(on := l.on[v.id := E.Settled(x.chan, x.read, msg)]);
    assert Possible(cfg, l1, send, true) && !Hasty(l1, send);
    l2 := After(cfg, l1, send, true);
  }

  /** Settled and acked, the message is forgotten by the relay while nobody has stored it. */
  lemma HastyLoses(cfg: Config, l: Links, v: Event) returns (more: seq<Links>)
    requires LinksOk(cfg, l) && Possible(cfg, l, v, true) && Hasty(l, v) && TakesAcks(l, v)
    ensures CarefulFrom(cfg, more) && more[0] == After(cfg, l, v, true)
    ensures !E.ExactlyOnce(View(more[|more| - 1], E.Off))
  {
    hide E.LinkOk, Apply, Enabled, InQueue, Holds, E.IsPrefix, ReadsNext, E.ExactlyOnce, Possible, After, Careful;
    var msg, h :| ReadsNext(l, v.id, msg) && Holds(l, h, msg);
    HeldIsNext(cfg, l, h, msg);
    NextIsQueued(cfg, Seen(l, E.Off), msg);
    var ack := Ack(l.on[v.id].chan, msg, l.w.clock);
    AckIsTaken(cfg, l.w, ack.chan, l.box, msg);
    hide LinksOk;
    var l2 := SettlesAndAcks(cfg, l, v, msg);
    var l3 := RelayTakes(cfg, l2, ack);
    more := [After(cfg, l, v, true), l2, l3];
    AckedButNotStored(cfg, View(l3, E.Off), msg);
  }

  lemma RelayTakes(cfg: Config, l: Links, ack: Step) returns (l': Links)
    requires ack.Ack? && Enabled(l.w, ack) && (ack.chan, ack.msg) in l.acks
    ensures Careful(cfg, l, l') && l' == l.(w := Apply(cfg, l.w, ack), acks := l'.acks)
  {
    hide Apply, Enabled;
    assert Possible(cfg, l, Relay(ack), true) && !Hasty(l, Relay(ack));
    l' := After(cfg, l, Relay(ack), true);
  }

  /** Exactly once from here on, whatever careful steps follow. */
  ghost predicate Harmless(cfg: Config, l: Links) {
    forall more: seq<Links> :: CarefulFrom(cfg, more) && more[0] == l ==> E.ExactlyOnce(View(more[|more| - 1], E.Off))
  }

  /**
   After any careful run, with any overlap of listeners: a step on a connection that takes acks keeps delivery
   exactly once on every careful continuation if and only if it is not a hasty settlement.
   */
  lemma HarmlessIff(cfg: Config, trace: seq<Links>, v: Event)
    requires CarefulRun(cfg, trace) && Possible(cfg, trace[|trace| - 1], v, true) && TakesAcks(trace[|trace| - 1], v)
    ensures Harmless(cfg, After(cfg, trace[|trace| - 1], v, true)) <==> !Hasty(trace[|trace| - 1], v)
  {
    hide LinksOk, E.Fresh, E.ExactlyOnce, Possible, After, Hasty, TakesAcks, Careful;
    var l := trace[|trace| - 1];
    FreshLinks(cfg, trace[0]);
    CarefulAlways(cfg, trace, |trace| - 1);
    if Hasty(l, v) {
      var more := HastyLoses(cfg, l, v);
    } else {
      CarefulStep(cfg, l, v);
      forall more: seq<Links> | CarefulFrom(cfg, more) && more[0] == After(cfg, l, v, true)
        ensures E.ExactlyOnce(View(more[|more| - 1], E.Off))
      {
        CarefulAlways(cfg, more, |more| - 1);
        LinksGuarantee(cfg, more[|more| - 1]);
      }
    }
  }

  // Serialised starts leave no room for a hasty settlement.

  ghost predicate AtMostOne(l: Links) { forall i, j :: i in l.on && j in l.on ==> i == j }

  lemma SerialStep(cfg: Config, l: Links, v: Event)
    requires AtMostOne(l) && Possible(cfg, l, v, false)
    ensures AtMostOne(After(cfg, l, v, false))
    ensures Possible(cfg, l, v, true) && !Hasty(l, v) && After(cfg, l, v, false) == After(cfg, l, v, true)
  {
    hide Apply, Enabled, E.Undisturbed;
  }

  lemma {:induction false} SerialAt(cfg: Config, trace: seq<Links>, n: nat)
    requires LinksRun(cfg, trace, false) && n < |trace|
    ensures AtMostOne(trace[n])
    ensures n > 0 ==> Careful(cfg, trace[n - 1], trace[n])
  {
    hide E.Fresh, Possible, After, Hasty;
    if n > 0 {
      SerialAt(cfg, trace, n - 1);
      assert Linked(cfg, trace[n - 1], trace[n - 1 + 1], false);
      var v :| Possible(cfg, trace[n - 1], v, false) && trace[n] == After(cfg, trace[n - 1], v, false);
      SerialStep(cfg, trace[n - 1], v);
    }
  }

  ghost predicate AlwaysExactlyOnce(cfg: Config, overlap: bool) {
    forall trace: seq<Links>, n: nat :: LinksRun(cfg, trace, overlap) && n < |trace| ==>
      E.ExactlyOnce(View(trace[n], E.Off))
  }

  lemma SerialIsExact(cfg: Config)
    ensures AlwaysExactlyOnce(cfg, false)
  {
    forall trace: seq<Links>, n: nat | LinksRun(cfg, trace, false) && n < |trace|
      ensures E.ExactlyOnce(View(trace[n], E.Off))
    {
      hide E.Fresh, Careful, E.ExactlyOnce, Linked;
      forall i | 0 <= i < |trace| - 1
        ensures Careful(cfg, trace[i], trace[i + 1])
      {
        SerialAt(cfg, trace, i + 1);
      }
      CarefulIsExact(cfg, trace, n);
    }
  }

  // An overlapping start: a run on which a message is acked that no listener has persisted.

  lemma Extend(cfg: Config, trace: seq<Links>, v: Event) returns (longer: seq<Links>)
    requires LinksRun(cfg, trace, true) && Possible(cfg, trace[|trace| - 1], v, true)
    ensures longer != [] && LinksRun(cfg, longer, true)
      && longer[|longer| - 1] == After(cfg, trace[|trace| - 1], v, true)
  {
    var last := trace[|trace| - 1];
    longer := trace + [After(cfg, last, v, true)];
    assert Linked(cfg, last, After(cfg, last, v, true), true);
    forall i | 0 <= i < |longer| - 1
      ensures Linked(cfg, longer[i], longer[i + 1], true)
    {
      if i < |trace| - 1 {
        assert Linked(cfg, trace[i], trace[i + 1], true);
      }
    }
    hide E.Fresh, Possible, After, Linked;
  }

  /** One message, numbered 0, queued at the inbox and nowhere acked. */
  ghost predicate Holding(w: World, box: string) {
    && box in w.boxes && w.clock == 0
    && |w.boxes[box].queue| == 1 && w.boxes[box].queue[0].id == 0
    && LogOf(w.hist, box) == [0] && 0 !in w.hist.acked
  }

  /** Connection `c` has been sent the message. */
  ghost predicate SentTo(w: World, box: string, c: Chan) {
    c in w.subs && w.subs[c].box == box && w.subs[c].wire == [0] && w.subs[c].phase.Parked?
  }

  lemma ConnectionGetsIt(cfg: Config, w: World, box: string, c: Chan) returns (w3: World)
    requires Holding(w, box) && c !in w.subs
    ensures Enabled(w, Register(c, box, 0))
    ensures var w1 := Apply(cfg, w, Register(c, box, 0));
      && Enabled(w1, Collect(c)) && Enabled(Apply(cfg, w1, Collect(c)), SendFrame(c, true))
      && w3 == Apply(cfg, Apply(cfg, w1, Collect(c)), SendFrame(c, true))
    ensures Holding(w3, box) && SentTo(w3, box, c)
    ensures forall d :: d in w3.subs <==> d == c || d in w.subs
    ensures forall d :: d in w.subs ==> w3.subs[d] == w.subs[d]
  {
    var w1 := Apply(cfg, w, Register(c, box, 0));
    assert Unsent(w1.boxes[box].queue, {}) == [0];
    var w2 := Apply(cfg, w1, Collect(c));
    assert w2.subs[c] == Subscriber(box, Sending, {}, [0], [], 0);
    hide Unsent, MailboxIdShapeOk;
    w3 := Apply(cfg, w2, SendFrame(c, true));
  }

  function Last(trace: seq<Links>): Links
    requires trace != []
  {
    trace[|trace| - 1]
  }

  /** The same, as events of a run: nothing but the relay changes. */
  lemma Connect(cfg: Config, trace: seq<Links>, c: Chan) returns (longer: seq<Links>)
    requires trace != [] && LinksRun(cfg, trace, true) && Holding(Last(trace).w, Last(trace).box)
      && c !in Last(trace).w.subs
    ensures longer != [] && LinksRun(cfg, longer, true)
    ensures var l, l' := Last(trace), Last(longer);
      && l' == l.(w := l'.w) && Holding(l'.w, l.box) && SentTo(l'.w, l.box, c)
      && (forall d :: d in l'.w.subs <==> d == c || d in l.w.subs)
      && forall d :: d in l.w.subs ==> l'.w.subs[d] == l.w.subs[d]
  {
    var l := Last(trace);
    var w3 := ConnectionGetsIt(cfg, l.w, l.box, c);
    hide LinksRun, Holding, SentTo, Enabled, Apply;
    longer := Extend(cfg, trace, Relay(Register(c, l.box, 0)));
    longer := Extend(cfg, longer, Relay(Collect(c)));
    longer := Extend(cfg, longer, Relay(SendFrame(c, true)));
  }

  lemma FreshInbox(cfg: Config, box: string) returns (w: World)
    requires cfg.maxMailboxes >= 1 && MailboxIdShapeOk(box)
    ensures w == Start.(boxes := map[box := FreshMailbox(0)])
    ensures LinksRun(cfg, [Links(w, box, map[], {}, {}, [], {})], true)
  {
    hide MailboxIdShapeOk;
    w := Apply(cfg, Start, Create(box, 0));
    assert w.boxes == map[box := FreshMailbox(0)];
    StepIsNext(cfg, Start, Create(box, 0));
    hide Apply, Enabled, Next;
    var trace := [Start, w];
    assert Run(cfg, trace) && w == trace[|trace| - 1];
    assert E.Reachable(cfg, w);
    hide Run, E.Reachable;
  }

  lemma DepositHolds(cfg: Config, w: World, box: string) returns (s: Step)
    requires cfg.maxMessages >= 1 && cfg.maxBytes >= 9 && MailboxIdShapeOk(box)
    requires w == Start.(boxes := map[box := FreshMailbox(0)])
    ensures s.Deposit? && Enabled(w, s) && Holding(Apply(cfg, w, s), box) && Apply(cfg, w, s).subs == map[]
  {
    hide MailboxIdShapeOk, Admissible, SomeBlob;
    s := Deposit(box, SomeBlob(9), 0, true, true, 0, 0);
    assert DepositStatus(cfg, w.boxes, box, SomeBlob(9), true, true) == Accepted;
  }

  lemma StartHolding(cfg: Config) returns (trace: seq<Links>)
    requires cfg.maxMailboxes >= 1 && cfg.maxMessages >= 1 && cfg.maxBytes >= 9
    ensures trace != [] && LinksRun(cfg, trace, true)
    ensures var l := Last(trace);
      Holding(l.w, l.box) && l == Links(l.w, l.box, map[], {}, {}, [], {}) && l.w.subs == map[]
  {
    var box := AnId();
    var w := FreshInbox(cfg, box);
    var s := DepositHolds(cfg, w, box);
    hide LinksRun, Apply, Holding, Enabled, MailboxIdShapeOk;
    trace := Extend(cfg, [Links(w, box, map[], {}, {}, [], {})], Relay(s));
  }

  /** The old listener takes the message off its connection and decrypts it. */
  lemma OldDecrypts(cfg: Config, trace: seq<Links>) returns (longer: seq<Links>)
    requires trace != [] && LinksRun(cfg, trace, true)
    requires var l := Last(trace); l == Links(l.w, l.box, map[], {}, {}, [], {}) && SentTo(l.w, l.box, 1)
    ensures longer != [] && LinksRun(cfg, longer, true)
    ensures var l := Last(trace); Last(longer) == Links(l.w, l.box, map[0 := E.Decrypted(1, 0, 0)], {1}, {0}, [], {})
  {
    hide LinksRun, Apply, Enabled, E.Undisturbed;
    var l := Last(trace);
    longer := Extend(cfg, trace, Act(0, E.Attach(1)));
    assert Last(longer) == Links(l.w, l.box, map[0 := E.Reading(1, 0)], {1}, {}, [], {});
    longer := Extend(cfg, longer, Act(0, E.Decrypt));
  }

  /** The new one finds it a replay and acks it. */
  lemma ReplayIsAcked(cfg: Config, trace: seq<Links>) returns (longer: seq<Links>)
    requires trace != [] && LinksRun(cfg, trace, true)
    requires var l := Last(trace);
      l == Links(l.w, l.box, map[0 := E.Decrypted(1, 0, 0)], {1}, {0}, [], {}) && SentTo(l.w, l.box, 2)
    ensures longer != [] && LinksRun(cfg, longer, true)
    ensures var l, l' := Last(trace), Last(longer);
      l'.w == l.w && l'.box == l.box && l'.persisted == [] && l'.acks == {(2, 0)}
  {
    hide LinksRun, Apply, Enabled, E.Undisturbed;
    longer := Extend(cfg, trace, Act(1, E.Attach(2)));
    assert Last(longer).on[1] == E.Reading(2, 0) && Last(longer).ratchet == {0};
    longer := Extend(cfg, longer, Act(1, E.Decrypt));
    assert Last(longer).on[1] == E.Settled(2, 0, 0);
    longer := Extend(cfg, longer, Act(1, E.SendAck(true)));
  }

  lemma AckForgets(cfg: Config, w: World, box: string)
    requires Holding(w, box) && SentTo(w, box, 2)
    ensures Enabled(w, Ack(2, 0, 0))
    ensures var w' := Apply(cfg, w, Ack(2, 0, 0)); LogOf(w'.hist, box) == [0] && 0 in w'.hist.acked
  {
    hide MailboxIdShapeOk;
  }

  lemma OverlapFails(cfg: Config) returns (trace: seq<Links>)
    requires cfg.maxMailboxes >= 1 && cfg.maxMessages >= 1 && cfg.maxBytes >= 9
    ensures trace != [] && LinksRun(cfg, trace, true) && !E.ExactlyOnce(View(Last(trace), E.Off))
  {
    hide LinksRun, Holding, SentTo, Apply, Enabled;
    trace := StartHolding(cfg);
    trace := Connect(cfg, trace, 1);
    trace := OldDecrypts(cfg, trace);
    trace := Connect(cfg, trace, 2);
    trace := ReplayIsAcked(cfg, trace);
    AckForgets(cfg, Last(trace).w, Last(trace).box);
    trace := Extend(cfg, trace, Relay(Ack(2, 0, 0)));
    var l := Last(trace);
    assert l.persisted == [] && LogOf(l.w.hist, l.box)[0] in l.w.hist.acked;
  }

  /**
   Exactly-once delivery over every run with starts and stops, if and only if no listener is started before
   the earlier ones have ended, that is, before the stop that ends them has returned.
   */
  lemma ExactlyOnceIff(cfg: Config, overlap: bool)
    requires cfg.maxMailboxes >= 1 && cfg.maxMessages >= 1 && cfg.maxBytes >= 9
    ensures AlwaysExactlyOnce(cfg, overlap) <==> !overlap
  {
    if overlap {
      var trace := OverlapFails(cfg);
      hide LinksRun, E.ExactlyOnce;
      assert LinksRun(cfg, trace, true) && trace[|trace| - 1] == Last(trace);
    } else {
      SerialIsExact(cfg);
    }
  }
}
