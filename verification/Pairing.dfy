/** Pairing and hand-over messages, read and written over Wire; text fields are byte strings that must be UTF-8. */
module Pairing {
  import opened Bytes
  import opened Wire

  const MAILBOX_ID_LEN: nat := 43
  const SECRET_LEN: nat := 32
  const SIG_LEN: nat := 64
  const ABSENT_ID: nat := 0xFFFF_FFFF

  datatype Error = UnsupportedVersion(got: Byte) | Malformed

  datatype Result<T> = Ok(value: T) | Err(error: Error)

  function ToResult<T>(o: Option<T>): Result<T> {
    match o
    case Some(v) => Ok(v)
    case None => Err(Malformed)
  }

  // mailbox-update/1 and /3: relay and inbox.

  datatype MailboxUpdate = MailboxUpdate(relay: seq<Byte>, inbox: seq<Byte>)

  const UPDATE_KINDS := [Fixed(1), Prefixed, Fixed(MAILBOX_ID_LEN)]

  function UpdateFields(version: Byte, u: MailboxUpdate): seq<seq<Byte>> { [[version], u.relay, u.inbox] }

  function UpdateWire(version: Byte, u: MailboxUpdate): seq<Byte> { Emit(UPDATE_KINDS, UpdateFields(version, u)) }

  predicate UpdateOk(u: MailboxUpdate) {
    |u.relay| <= U16_MAX && |u.inbox| == MAILBOX_ID_LEN && ValidUtf8(u.relay) && ValidUtf8(u.inbox)
  }

  function UpdateOf(version: Byte, vs: seq<seq<Byte>>): Option<MailboxUpdate> {
    if |vs| == 3 && vs[0] == [version] && ValidUtf8(vs[1]) && ValidUtf8(vs[2]) then Some(MailboxUpdate(vs[1], vs[2]))
    else None
  }

  function ParsedUpdate(version: Byte, bs: seq<Byte>): Option<MailboxUpdate> {
    match ReadWhole(UPDATE_KINDS, bs)
    case None => None
    case Some(vs) => UpdateOf(version, vs)
  }

  method EncodeMailboxUpdate(version: Byte, u: MailboxUpdate) returns (out: seq<Byte>)
    requires |u.relay| <= U16_MAX
    ensures out == UpdateWire(version, u)
  {
    hide Emit;
    var w := new Writer();
    w.Raw([version], 1);
    w.PutBytes(u.relay);
    w.Raw(u.inbox, MAILBOX_ID_LEN);
    assert w.kinds == UPDATE_KINDS && w.fields == UpdateFields(version, u);
    return w.out;
  }

  method ParseMailboxUpdate(version: Byte, bs: seq<Byte>) returns (r: Result<MailboxUpdate>)
    ensures r == ToResult(ParsedUpdate(version, bs))
  {
    hide Reached, ReadWhole, ValidUtf8;
    var c := new Cursor(bs, UPDATE_KINDS);
    var v := c.Take(1);
    if v.None? || v.value[0] != version {
      return Err(Malformed);
    }
    var relay := c.BytesField();
    if relay.None? || !ValidUtf8(relay.value) {
      return Err(Malformed);
    }
    var inbox := c.Take(MAILBOX_ID_LEN);
    if inbox.None? || !ValidUtf8(inbox.value) || c.pos != |bs| {
      return Err(Malformed);
    }
    assert c.got == [v.value, relay.value, inbox.value];
    return Ok(MailboxUpdate(relay.value, inbox.value));
  }

  /** Whatever is read stands there, and whatever stands there is read. */
  lemma UpdateExact(version: Byte, bs: seq<Byte>, u: MailboxUpdate)
    ensures ParsedUpdate(version, bs) == Some(u) <==> UpdateOk(u) && bs == UpdateWire(version, u)
  {
    var vs := UpdateFields(version, u);
    ReadWholeExact(UPDATE_KINDS, bs, vs);
    FitsEach(UPDATE_KINDS, vs);
    hide Emit, ReadWhole, FitsAll, ValidUtf8;
    match ReadWhole(UPDATE_KINDS, bs)
    case None =>
    case Some(ws) => assert UpdateOf(version, ws) == Some(u) ==> ws == vs;
  }

  /** So encode then parse is the identity exactly for ids of 43 bytes. */
  lemma UpdateRoundTrip(version: Byte, u: MailboxUpdate)
    requires |u.relay| <= U16_MAX && ValidUtf8(u.relay) && ValidUtf8(u.inbox)
    ensures ParsedUpdate(version, UpdateWire(version, u)) == Some(u) <==> |u.inbox| == MAILBOX_ID_LEN
  {
    UpdateExact(version, UpdateWire(version, u), u);
  }

  // mailbox-update/2: the pairing hand-over, with a recovery contribution.

  datatype Handoff = Handoff(relay: seq<Byte>, inbox: seq<Byte>, contribution: seq<Byte>)

  const HANDOFF_KINDS := [Fixed(1), Prefixed, Fixed(MAILBOX_ID_LEN), Fixed(SECRET_LEN)]

  function HandoffFields(h: Handoff): seq<seq<Byte>> { [[2], h.relay, h.inbox, h.contribution] }

  function HandoffWire(h: Handoff): seq<Byte> { Emit(HANDOFF_KINDS, HandoffFields(h)) }

  predicate HandoffOk(h: Handoff) {
    && |h.relay| <= U16_MAX && |h.inbox| == MAILBOX_ID_LEN && |h.contribution| == SECRET_LEN
    && ValidUtf8(h.relay) && ValidUtf8(h.inbox)
  }

  function ParsedHandoff(bs: seq<Byte>): Option<Handoff> {
    match ReadWhole(HANDOFF_KINDS, bs)
    case None => None
    case Some(vs) =>
      if |vs| == 4 && vs[0] == [2] && ValidUtf8(vs[1]) && ValidUtf8(vs[2]) then Some(Handoff(vs[1], vs[2], vs[3]))
      else None
  }

  method EncodeHandoff(h: Handoff) returns (out: seq<Byte>)
    requires |h.relay| <= U16_MAX && |h.contribution| == SECRET_LEN
    ensures out == HandoffWire(h)
  {
    hide Emit;
    var w := new Writer();
    w.Raw([2], 1);
    w.PutBytes(h.relay);
    w.Raw(h.inbox, MAILBOX_ID_LEN);
    w.Raw(h.contribution, SECRET_LEN);
    assert w.kinds == HANDOFF_KINDS && w.fields == HandoffFields(h);
    return w.out;
  }

  method ParseHandoff(bs: seq<Byte>) returns (r: Result<Handoff>)
    ensures r == ToResult(ParsedHandoff(bs))
  {
    hide Reached, ReadWhole, ValidUtf8;
    var c := new Cursor(bs, HANDOFF_KINDS);
    var v := c.Take(1);
    if v.None? || v.value[0] != 2 {
      return Err(Malformed);
    }
    var relay := c.BytesField();
    if relay.None? || !ValidUtf8(relay.value) {
      return Err(Malformed);
    }
    var inbox := c.Take(MAILBOX_ID_LEN);
    if inbox.None? || !ValidUtf8(inbox.value) {
      return Err(Malformed);
    }
    var contribution := c.Take(SECRET_LEN);
    if contribution.None? || c.pos != |bs| {
      return Err(Malformed);
    }
    assert c.got == [v.value, relay.value, inbox.value, contribution.value];
    return Ok(Handoff(relay.value, inbox.value, contribution.value));
  }

  lemma HandoffExact(bs: seq<Byte>, h: Handoff)
    ensures ParsedHandoff(bs) == Some(h) <==> HandoffOk(h) && bs == HandoffWire(h)
  {
    var vs := HandoffFields(h);
    ReadWholeExact(HANDOFF_KINDS, bs, vs);
    FitsEach(HANDOFF_KINDS, vs);
    hide Emit, ReadWhole, FitsAll, ValidUtf8;
    match ReadWhole(HANDOFF_KINDS, bs)
    case None =>
    case Some(ws) => assert |ws| == 4 && ws[0] == [2] && ParsedHandoff(bs) == Some(h) ==> ws == vs;
  }

  // pair-ack/2.

  datatype PairAck = PairAck(
    bundle: seq<Byte>, relay: seq<Byte>, inbox: seq<Byte>, contribution: seq<Byte>, proof: seq<Byte>)

  const ACK_KINDS := [Fixed(1), Prefixed, Prefixed, Fixed(MAILBOX_ID_LEN), Fixed(SECRET_LEN), Fixed(32)]

  function AckFields(a: PairAck): seq<seq<Byte>> { [[2], a.bundle, a.relay, a.inbox, a.contribution, a.proof] }

  function AckWire(a: PairAck): seq<Byte> { Emit(ACK_KINDS, AckFields(a)) }

  predicate AckOk(a: PairAck) {
    && |a.bundle| <= U16_MAX && |a.relay| <= U16_MAX && |a.inbox| == MAILBOX_ID_LEN
    && |a.contribution| == SECRET_LEN && |a.proof| == 32 && ValidUtf8(a.relay) && ValidUtf8(a.inbox)
  }

  function ParsedAck(bs: seq<Byte>): Option<PairAck> {
    match ReadWhole(ACK_KINDS, bs)
    case None => None
    case Some(vs) =>
      if |vs| == 6 && vs[0] == [2] && ValidUtf8(vs[2]) && ValidUtf8(vs[3]) then
        Some(PairAck(vs[1], vs[2], vs[3], vs[4], vs[5]))
      else None
  }

  /** The proof is the HMAC of bundle and contribution under the pairing secret; `mac` is that HMAC. */
  method EncodePairAck(
    bundle: seq<Byte>, relay: seq<Byte>, inbox: seq<Byte>, contribution: seq<Byte>, mac: seq<Byte> -> seq<Byte>)
    returns (out: seq<Byte>)
    requires |bundle| <= U16_MAX && |relay| <= U16_MAX && |contribution| == SECRET_LEN
      && |mac(bundle + contribution)| == 32
    ensures out == AckWire(PairAck(bundle, relay, inbox, contribution, mac(bundle + contribution)))
  {
    hide Emit;
    var proof := mac(bundle + contribution);
    var w := new Writer();
    w.Raw([2], 1);
    w.PutBytes(bundle);
    w.PutBytes(relay);
    w.Raw(inbox, MAILBOX_ID_LEN);
    w.Raw(contribution, SECRET_LEN);
    w.Raw(proof, 32);
    assert w.kinds == ACK_KINDS && w.fields == AckFields(PairAck(bundle, relay, inbox, contribution, proof));
    return w.out;
  }

  method ParsePairAck(bs: seq<Byte>) returns (r: Result<PairAck>)
    ensures r == ToResult(ParsedAck(bs))
  {
    hide Reached, ReadWhole, ValidUtf8;
    var c := new Cursor(bs, ACK_KINDS);
    var v := c.Take(1);
    if v.None? || v.value[0] != 2 {
      return Err(Malformed);
    }
    var bundle := c.BytesField();
    if bundle.None? {
      return Err(Malformed);
    }
    var relay := c.BytesField();
    if relay.None? || !ValidUtf8(relay.value) {
      return Err(Malformed);
    }
    var inbox := c.Take(MAILBOX_ID_LEN);
    if inbox.None? || !ValidUtf8(inbox.value) {
      return Err(Malformed);
    }
    var contribution := c.Take(SECRET_LEN);
    if contribution.None? {
      return Err(Malformed);
    }
    var proof := c.Take(32);
    if proof.None? || c.pos != |bs| {
      return Err(Malformed);
    }
    assert c.got == [v.value, bundle.value, relay.value, inbox.value, contribution.value, proof.value];
    return Ok(PairAck(bundle.value, relay.value, inbox.value, contribution.value, proof.value));
  }

  lemma AckExact(bs: seq<Byte>, a: PairAck)
    ensures ParsedAck(bs) == Some(a) <==> AckOk(a) && bs == AckWire(a)
  {
    var vs := AckFields(a);
    ReadWholeExact(ACK_KINDS, bs, vs);
    FitsEach(ACK_KINDS, vs);
    hide Emit, ReadWhole, FitsAll, ValidUtf8;
    match ReadWhole(ACK_KINDS, bs)
    case None =>
    case Some(ws) => assert |ws| == 6 && ws[0] == [2] && ParsedAck(bs) == Some(a) ==> ws == vs;
  }
}
