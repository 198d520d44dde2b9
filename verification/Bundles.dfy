/** The pairing bundle (format version 1). */
module Bundles {
  import opened Bytes
  import opened Wire
  import opened Pairing

  datatype Bundle = Bundle(
    address: seq<Byte>, registrationId: nat, deviceId: nat, identityKey: seq<Byte>,
    signedId: nat, signedPub: seq<Byte>, signedSig: seq<Byte>,
    kyberId: nat, kyberPub: seq<Byte>, kyberSig: seq<Byte>, oneTime: Option<(nat, seq<Byte>)>)

  const BUNDLE_KINDS := [
    Fixed(1), Prefixed, Fixed(4), Fixed(4), Prefixed, Fixed(4), Prefixed, Prefixed, Fixed(4), Prefixed, Prefixed,
    Fixed(4), Prefixed]

  function OneTimeId(d: Bundle): nat { if d.oneTime.Some? then d.oneTime.value.0 else ABSENT_ID }

  function OneTimeKey(d: Bundle): seq<Byte> { if d.oneTime.Some? then d.oneTime.value.1 else [] }

  /** The fields of `d`, with `key` in the place of the one-time key. */
  function FieldsWith(d: Bundle, key: seq<Byte>): seq<seq<Byte>> {
    [[1], d.address, ToBe(4, d.registrationId), ToBe(4, d.deviceId), d.identityKey, ToBe(4, d.signedId),
     d.signedPub, d.signedSig, ToBe(4, d.kyberId), d.kyberPub, d.kyberSig, ToBe(4, OneTimeId(d)), key]
  }

  function BundleWire(d: Bundle): seq<Byte> { Emit(BUNDLE_KINDS, FieldsWith(d, OneTimeKey(d))) }

  /** What the field types demand of any bundle. */
  predicate Representable(d: Bundle) {
    && d.registrationId <= U32_MAX && d.deviceId <= U32_MAX && d.signedId <= U32_MAX && d.kyberId <= U32_MAX
    && OneTimeId(d) <= U32_MAX && ValidUtf8(d.address)
    && |d.address| <= U16_MAX && |d.identityKey| <= U16_MAX && |d.signedPub| <= U16_MAX && |d.signedSig| <= U16_MAX
    && |d.kyberPub| <= U16_MAX && |d.kyberSig| <= U16_MAX && |OneTimeKey(d)| <= U16_MAX
  }

  /** What a parser of version 1 admits beyond that. */
  predicate Admissible(d: Bundle) {
    d.deviceId == 1 && d.kyberPub != [] && (d.oneTime.Some? ==> d.oneTime.value.0 != ABSENT_ID)
  }

  predicate FieldsOk(vs: seq<seq<Byte>>) {
    |vs| == 13 && vs[0] == [1] && ValidUtf8(vs[1]) && FromBe(vs[3]) == 1 && vs[9] != []
  }

  function BundleOf(vs: seq<seq<Byte>>): Bundle
    requires |vs| == 13
  {
    Bundle(vs[1], FromBe(vs[2]), FromBe(vs[3]), vs[4], FromBe(vs[5]), vs[6], vs[7], FromBe(vs[8]), vs[9], vs[10],
           if FromBe(vs[11]) == ABSENT_ID then None else Some((FromBe(vs[11]), vs[12])))
  }

  function ParsedBundle(bs: seq<Byte>): Option<Bundle> {
    match ReadWhole(BUNDLE_KINDS, bs)
    case None => None
    case Some(vs) => if FieldsOk(vs) then Some(BundleOf(vs)) else None
  }

  method PutIdentity(w: Writer, d: Bundle)
    requires Representable(d) && w.Valid() && w.kinds == []
    modifies w
    ensures w.Valid() && w.kinds == BUNDLE_KINDS[..6] && w.fields == FieldsWith(d, [])[..6]
  {
    hide Emit, ToBe, ValidUtf8;
    w.Raw([1], 1);
    w.PutBytes(d.address);
    w.Raw(ToBe(4, d.registrationId), 4);
    w.Raw(ToBe(4, d.deviceId), 4);
    w.PutBytes(d.identityKey);
    w.Raw(ToBe(4, d.signedId), 4);
  }

  method PutPrekeys(w: Writer, d: Bundle)
    requires Representable(d) && w.Valid() && w.kinds == BUNDLE_KINDS[..6] && w.fields == FieldsWith(d, [])[..6]
    modifies w
    ensures w.Valid() && w.kinds == BUNDLE_KINDS[..11] && w.fields == FieldsWith(d, [])[..11]
  {
    hide Emit, ToBe, ValidUtf8;
    w.PutBytes(d.signedPub);
    w.PutBytes(d.signedSig);
    w.Raw(ToBe(4, d.kyberId), 4);
    w.PutBytes(d.kyberPub);
    w.PutBytes(d.kyberSig);
  }

  method Serialize(d: Bundle) returns (out: seq<Byte>)
    requires Representable(d)
    ensures out == BundleWire(d)
  {
    var w := new Writer();
    PutIdentity(w, d);
    PutPrekeys(w, d);
    hide Emit, ToBe, ValidUtf8;
    match d.oneTime {
      case Some(pair) =>
        w.Raw(ToBe(4, pair.0), 4);
        w.PutBytes(pair.1);
      case None =>
        w.Raw(ToBe(4, ABSENT_ID), 4);
        w.PutBytes([]);
    }
    assert w.kinds == BUNDLE_KINDS && w.fields == FieldsWith(d, OneTimeKey(d));
    return w.out;
  }

  method ReadIdentity(c: Cursor) returns (r: Option<seq<seq<Byte>>>)
    requires c.Valid() && c.goal == BUNDLE_KINDS && c.got == []
    modifies c
    ensures r.Some? ==> c.Valid() && c.got == r.value && |r.value| == 6
    ensures r.Some? ==> r.value[0] == [1] && ValidUtf8(r.value[1]) && FromBe(r.value[3]) == 1
    ensures r.None? ==> ParsedBundle(c.bytes) == None
  {
    hide Reached, ReadWhole, ValidUtf8, FromBe;
    var version := c.Take(1);
    if version.None? || version.value[0] != 1 { return None; }
    var address := c.BytesField();
    if address.None? || !ValidUtf8(address.value) { return None; }
    var registration := c.Take(4);
    if registration.None? { return None; }
    var device := c.Take(4);
    if device.None? || FromBe(device.value) != 1 { return None; }
    var identity := c.BytesField();
    if identity.None? { return None; }
    var signedId := c.Take(4);
    if signedId.None? { return None; }
    return Some([version.value, address.value, registration.value, device.value, identity.value, signedId.value]);
  }

  method ReadPrekeys(c: Cursor) returns (r: Option<seq<seq<Byte>>>)
    requires c.Valid() && c.goal == BUNDLE_KINDS && |c.got| == 6
    modifies c
    ensures r.Some? ==> c.Valid() && c.got == old(c.got) + r.value && |r.value| == 5 && r.value[3] != []
    ensures r.None? ==> ParsedBundle(c.bytes) == None
  {
    hide Reached, ReadWhole, ValidUtf8, FromBe;
    var signedPub := c.BytesField();
    if signedPub.None? { return None; }
    var signedSig := c.BytesField();
    if signedSig.None? { return None; }
    var kyberId := c.Take(4);
    if kyberId.None? { return None; }
    var kyberPub := c.BytesField();
    if kyberPub.None? { return None; }
    var kyberSig := c.BytesField();
    if kyberSig.None? || kyberPub.value == [] { return None; }
    return Some([signedPub.value, signedSig.value, kyberId.value, kyberPub.value, kyberSig.value]);
  }

  method Parse(bs: seq<Byte>) returns (r: Result<Bundle>)
    ensures r == ToResult(ParsedBundle(bs))
  {
    hide Reached, ReadWhole, ValidUtf8, FromBe;
    var c := new Cursor(bs, BUNDLE_KINDS);
    var identity := ReadIdentity(c);
    if identity.None? { return Err(Malformed); }
    var prekeys := ReadPrekeys(c);
    if prekeys.None? { return Err(Malformed); }
    var oneTimeId := c.Take(4);
    if oneTimeId.None? { return Err(Malformed); }
    var oneTimePub := c.BytesField();
    if oneTimePub.None? || c.pos != |bs| { return Err(Malformed); }
    var vs := identity.value + prekeys.value + [oneTimeId.value, oneTimePub.value];
    assert c.got == vs && vs[0] == [1] && vs[9] == prekeys.value[3];
    return Ok(BundleOf(vs));
  }

  lemma U32Fields(v: nat)
    requires v <= U32_MAX
    ensures FromBe(ToBe(4, v)) == v
  {
    PowWidths();
    FromBeToBe(4, v);
  }

  lemma U32Bytes(bs: seq<Byte>)
    requires |bs| == 4
    ensures FromBe(bs) <= U32_MAX && ToBe(4, FromBe(bs)) == bs
  {
    PowWidths();
    ToBeFromBe(bs);
  }

  /** Fields that pass the checks are those of the bundle they give, but for the unused key of an absent id. */
  lemma FieldsOfBundle(vs: seq<seq<Byte>>)
    requires FieldsOk(vs) && FitsAll(BUNDLE_KINDS, vs)
    ensures var d := BundleOf(vs);
      && Representable(d) && Admissible(d) && vs == FieldsWith(d, vs[12])
      && (d.oneTime.Some? ==> vs[12] == OneTimeKey(d))
  {
    FitsEach(BUNDLE_KINDS, vs);
    U32Bytes(vs[2]);
    U32Bytes(vs[3]);
    U32Bytes(vs[5]);
    U32Bytes(vs[8]);
    U32Bytes(vs[11]);
    hide FitsAll, FromBe, ToBe, ValidUtf8;
  }

  lemma BundleOfFields(d: Bundle, key: seq<Byte>)
    requires Representable(d) && |key| <= U16_MAX && (d.oneTime.Some? ==> key == OneTimeKey(d))
    ensures FitsAll(BUNDLE_KINDS, FieldsWith(d, key))
    ensures FieldsOk(FieldsWith(d, key)) <==> d.deviceId == 1 && d.kyberPub != []
    ensures BundleOf(FieldsWith(d, key)) == d <==> (d.oneTime.Some? ==> d.oneTime.value.0 != ABSENT_ID)
  {
    U32Fields(d.registrationId);
    U32Fields(d.deviceId);
    U32Fields(d.signedId);
    U32Fields(d.kyberId);
    U32Fields(OneTimeId(d));
    FitsEach(BUNDLE_KINDS, FieldsWith(d, key));
    hide FitsAll, FromBe, ToBe, ValidUtf8;
  }

  /** Serialize then parse is the identity exactly for the admissible bundles. */
  lemma BundleRoundTrip(d: Bundle)
    requires Representable(d)
    ensures ParsedBundle(BundleWire(d)) == Some(d) <==> Admissible(d)
  {
    var vs := FieldsWith(d, OneTimeKey(d));
    BundleOfFields(d, OneTimeKey(d));
    ReadWholeExact(BUNDLE_KINDS, BundleWire(d), vs);
    hide FitsAll, ReadWhole, Emit, FieldsWith, Representable;
  }

  /**
   Any parsed bundle came from its own fields; serializing it again gives the same bytes except when the
   input carried a key after an absent one-time id, which the parser drops.
   */
  lemma BundleFaithful(bs: seq<Byte>)
    requires ParsedBundle(bs).Some?
    ensures var d, vs := ParsedBundle(bs).value, ReadWhole(BUNDLE_KINDS, bs).value;
      && Representable(d) && Admissible(d) && bs == Emit(BUNDLE_KINDS, FieldsWith(d, vs[12]))
      && (BundleWire(d) == bs <==> (d.oneTime.None? ==> vs[12] == []))
  {
    var vs := ReadWhole(BUNDLE_KINDS, bs).value;
    var d := BundleOf(vs);
    ReadWholeExact(BUNDLE_KINDS, bs, vs);
    FieldsOfBundle(vs);
    ReadWholeExact(BUNDLE_KINDS, bs, FieldsWith(d, OneTimeKey(d)));
    assert FieldsWith(d, vs[12])[12] == vs[12] && FieldsWith(d, OneTimeKey(d))[12] == OneTimeKey(d);
    hide FitsAll, ReadWhole, Emit, FieldsOk;
    BundleOfFields(d, OneTimeKey(d));
  }
}
