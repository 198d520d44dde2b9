/** Pairing offers (version 3): the signed encoding, its structural parse, and the validity rule. */
module Offers {
  import opened Bytes
  import opened Wire
  import opened Pairing
  import opened Bundles

  const MAX_TTL_S: nat := 86_400
  const FUTURE_SKEW_S: nat := 300

  datatype Offer = Offer(
    bundle: seq<Byte>, relay: seq<Byte>, inbox: seq<Byte>, secret: seq<Byte>, issuedAt: nat, ttl: nat)

  const SIGNED_KINDS := [Fixed(1), Prefixed, Prefixed, Fixed(MAILBOX_ID_LEN), Fixed(SECRET_LEN), Fixed(8), Fixed(4)]
  const OFFER_KINDS := SIGNED_KINDS + [Fixed(SIG_LEN)]

  function SignedFields(o: Offer): seq<seq<Byte>> {
    [[3], o.bundle, o.relay, o.inbox, o.secret, ToBe(8, o.issuedAt), ToBe(4, o.ttl)]
  }

  /** The bytes the signature covers. */
  function SignedPart(o: Offer): seq<Byte> { Emit(SIGNED_KINDS, SignedFields(o)) }

  predicate OfferOk(o: Offer) {
    && |o.bundle| <= U16_MAX && |o.relay| <= U16_MAX && |o.inbox| == MAILBOX_ID_LEN && |o.secret| == SECRET_LEN
    && o.issuedAt <= U64_MAX && o.ttl <= U32_MAX && ValidUtf8(o.relay) && ValidUtf8(o.inbox)
  }

  /** `sign` is the identity key's signature. */
  method EncodeOffer(o: Offer, sign: seq<Byte> -> seq<Byte>) returns (out: seq<Byte>)
    requires |o.bundle| <= U16_MAX && |o.relay| <= U16_MAX && |sign(SignedPart(o))| == SIG_LEN
    ensures out == SignedPart(o) + sign(SignedPart(o))
  {
    hide Emit, ToBe;
    var w := new Writer();
    w.Raw([3], 1);
    w.PutBytes(o.bundle);
    w.PutBytes(o.relay);
    w.Raw(o.inbox, MAILBOX_ID_LEN);
    w.Raw(o.secret, SECRET_LEN);
    w.Raw(ToBe(8, o.issuedAt), 8);
    w.Raw(ToBe(4, o.ttl), 4);
    assert w.kinds == SIGNED_KINDS && w.fields == SignedFields(o);
    var sig := sign(w.out);
    return w.out + sig;
  }

  function OfferOf(vs: seq<seq<Byte>>): Offer
    requires |vs| == 8
  {
    Offer(vs[1], vs[2], vs[3], vs[4], FromBe(vs[5]), FromBe(vs[6]))
  }

  function ParsedOffer(bs: seq<Byte>): Result<Offer> {
    if bs == [] then Err(Malformed)
    else if bs[0] != 3 then Err(UnsupportedVersion(bs[0]))
    else
      match ReadWhole(OFFER_KINDS, bs)
      case None => Err(Malformed)
      case Some(vs) => if |vs| == 8 && ValidUtf8(vs[2]) && ValidUtf8(vs[3]) then Ok(OfferOf(vs)) else Err(Malformed)
  }

  method ParseOfferStructure(bs: seq<Byte>) returns (r: Result<Offer>)
    ensures r == ParsedOffer(bs)
  {
    hide Reached, ReadWhole, ValidUtf8, FromBe;
    var c := new Cursor(bs, OFFER_KINDS);
    var version := c.Take(1);
    if version.None? { return Err(Malformed); }
    if version.value[0] != 3 { return Err(UnsupportedVersion(version.value[0])); }
    var bundle := c.BytesField();
    if bundle.None? { return Err(Malformed); }
    var relay := c.BytesField();
    if relay.None? || !ValidUtf8(relay.value) { return Err(Malformed); }
    var inbox := c.Take(MAILBOX_ID_LEN);
    if inbox.None? || !ValidUtf8(inbox.value) { return Err(Malformed); }
    var secret := c.Take(SECRET_LEN);
    if secret.None? { return Err(Malformed); }
    var issuedAt := c.Take(8);
    if issuedAt.None? { return Err(Malformed); }
    var ttl := c.Take(4);
    if ttl.None? { return Err(Malformed); }
    var sig := c.Take(SIG_LEN);
    if sig.None? || c.pos != |bs| { return Err(Malformed); }
    var vs :=
      [version.value, bundle.value, relay.value, inbox.value, secret.value, issuedAt.value, ttl.value, sig.value];
    assert c.got == vs;
    return Ok(OfferOf(vs));
  }

  /** What stands before the last 64 bytes of a parsed offer is exactly the encoding of the fields returned. */
  lemma SignedBytesFaithful(bs: seq<Byte>)
    requires ParsedOffer(bs).Ok?
    ensures var o := ParsedOffer(bs).value;
      OfferOk(o) && |bs| >= SIG_LEN && bs[..|bs| - SIG_LEN] == SignedPart(o)
  {
    var vs := ReadWhole(OFFER_KINDS, bs).value;
    ReadWholeExact(OFFER_KINDS, bs, vs);
    FitsEach(OFFER_KINDS, vs);
    var o, sig := OfferOf(vs), vs[7];
    PowWidths();
    ToBeFromBe(vs[5]);
    ToBeFromBe(vs[6]);
    EmitPush(SIGNED_KINDS, vs[..7], Fixed(SIG_LEN), sig);
    assert vs == vs[..7] + [sig];
    assert vs[0] == [bs[0]] by { FirstByte(vs, bs); }
    hide FromBe, ToBe, Emit, FitsAll, ReadWhole, ValidUtf8;
    assert vs[..7] == SignedFields(o);
  }

  lemma FirstByte(vs: seq<seq<Byte>>, bs: seq<Byte>)
    requires |vs| == 8 && |vs[0]| == 1 && bs == Emit(OFFER_KINDS, vs)
    ensures bs != [] && vs[0] == [bs[0]]
  {
    assert bs == vs[0] + Emit(OFFER_KINDS[1..], vs[1..]);
  }

  /** Encode then parse gives the offer back, whatever the signature. */
  lemma OfferRoundTrip(o: Offer, sig: seq<Byte>)
    requires OfferOk(o) && |sig| == SIG_LEN
    ensures ParsedOffer(SignedPart(o) + sig) == Ok(o)
  {
    var vs := SignedFields(o) + [sig];
    var bs := SignedPart(o) + sig;
    EmitPush(SIGNED_KINDS, SignedFields(o), Fixed(SIG_LEN), sig);
    FitsEach(OFFER_KINDS, vs);
    ReadWholeExact(OFFER_KINDS, bs, vs);
    FirstByte(vs, bs);
    PowWidths();
    FromBeToBe(8, o.issuedAt);
    FromBeToBe(4, o.ttl);
    hide FromBe, ToBe, Emit, FitsAll, ReadWhole, ValidUtf8;
  }

  // The validity rule.

  datatype Verdict = BadTtl | NotYetValid | Expired | Accepted

  function SaturatingAdd(a: nat, b: nat): nat { if a + b <= U64_MAX then a + b else U64_MAX }

  function Judge(issuedAt: nat, ttl: nat, now: nat): Verdict {
    if ttl == 0 || ttl > MAX_TTL_S then BadTtl
    else if issuedAt > SaturatingAdd(now, FUTURE_SKEW_S) then NotYetValid
    else if now >= SaturatingAdd(issuedAt, ttl) then Expired
    else Accepted
  }

  /** The rule over unbounded integers. */
  predicate InWindow(issuedAt: nat, ttl: nat, now: nat) { issuedAt <= now + FUTURE_SKEW_S && now < issuedAt + ttl }

  /**
   The saturating checks decide the unbounded rule, except in the very last second of the clock for a window
   that reaches past it.
   */
  lemma JudgeExact(issuedAt: nat, ttl: nat, now: nat)
    requires issuedAt <= U64_MAX && now <= U64_MAX
    ensures Judge(issuedAt, ttl, now).BadTtl? <==> !(1 <= ttl <= MAX_TTL_S)
    ensures !Judge(issuedAt, ttl, now).BadTtl? ==>
      (Judge(issuedAt, ttl, now).NotYetValid? <==> issuedAt > now + FUTURE_SKEW_S)
    ensures !Judge(issuedAt, ttl, now).BadTtl? ==>
      ((Judge(issuedAt, ttl, now).Accepted? <==> InWindow(issuedAt, ttl, now))
       <==> !(now == U64_MAX && issuedAt + ttl > U64_MAX))
  {}

  function Rank(v: Verdict): nat {
    match v
    case NotYetValid => 0
    case Accepted => 1
    case Expired => 2
    case BadTtl => 3
  }

  /** As time passes the verdict only moves from not yet valid to accepted to expired. */
  lemma JudgeMonotone(issuedAt: nat, ttl: nat, now: nat, later: nat)
    requires issuedAt <= U64_MAX && now <= later <= U64_MAX
    ensures Rank(Judge(issuedAt, ttl, now)) <= Rank(Judge(issuedAt, ttl, later))
  {}

  datatype Decision = Rejected(error: Error) | BadSignature | NotValid(verdict: Verdict) | Takes(offer: Offer)

  /** Accepting an offer: structure, the signature by the identity key in its own bundle, then the clock. */
  method AcceptOffer(bs: seq<Byte>, now: nat, verify: (seq<Byte>, seq<Byte>, seq<Byte>) -> bool) returns (d: Decision)
    requires now <= U64_MAX
    ensures d.Takes? <==> Takeable(bs, now, verify)
    ensures d.Takes? ==> ParsedOffer(bs) == Ok(d.offer)
    ensures d.Rejected? <==> ParsedOffer(bs).Err? || ParsedBundle(ParsedOffer(bs).value.bundle).None?
    ensures d.Rejected? ==> d.error == if ParsedOffer(bs).Err? then ParsedOffer(bs).error else Malformed
    ensures d.BadSignature? <==> !d.Rejected? && !Verified(bs, verify)
    ensures d.NotValid? ==> Verified(bs, verify) && !d.verdict.Accepted?
    ensures d.NotValid? ==> d.verdict == Judge(ParsedOffer(bs).value.issuedAt, ParsedOffer(bs).value.ttl, now)
  {
    var r := ParseOfferStructure(bs);
    if r.Err? { return Rejected(r.error); }
    var offer := r.value;
    SignedBytesFaithful(bs);
    var bundle := Bundles.Parse(offer.bundle);
    if bundle.Err? { return Rejected(bundle.error); }
    var cut := |bs| - SIG_LEN;
    if !verify(bundle.value.identityKey, bs[..cut], bs[cut..]) { return BadSignature; }
    var verdict := Judge(offer.issuedAt, offer.ttl, now);
    if !verdict.Accepted? { return NotValid(verdict); }
    return Takes(offer);
  }

  /** The identity key inside the offer's own bundle verifies the encoding of the very fields returned. */
  predicate Verified(bs: seq<Byte>, verify: (seq<Byte>, seq<Byte>, seq<Byte>) -> bool) {
    ParsedOffer(bs).Ok? &&
    var o := ParsedOffer(bs).value;
    && ParsedBundle(o.bundle).Some? && |bs| >= SIG_LEN
    && verify(ParsedBundle(o.bundle).value.identityKey, SignedPart(o), bs[|bs| - SIG_LEN..])
  }

  predicate Takeable(bs: seq<Byte>, now: nat, verify: (seq<Byte>, seq<Byte>, seq<Byte>) -> bool) {
    Verified(bs, verify) && Judge(ParsedOffer(bs).value.issuedAt, ParsedOffer(bs).value.ttl, now).Accepted?
  }
}
