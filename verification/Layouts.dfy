/**
 The formats byte by byte: what the messages of Pairing, Bundles, Offers, DerivedIds, Padding and Base64Url look
 like on the wire, as the pieces that stand one after the other and in numerals. Integers are high byte first
 (`Bytes.ToBeAt`).
 */
module Layouts {
  import opened Bytes
  import opened Wire
  import Base64Url
  import P = Pairing
  import B = Bundles
  import O = Offers
  import D = DerivedIds
  import F = Padding

  /** A 16-bit length and the bytes. */
  function Counted(v: seq<Byte>): seq<Byte> { ToBe(2, |v|) + v }

  function Join(pieces: seq<seq<Byte>>): seq<Byte> {
    if pieces == [] then [] else pieces[0] + Join(pieces[1..])
  }

  function Pieces(ks: seq<Kind>, vs: seq<seq<Byte>>): seq<seq<Byte>>
    requires |ks| == |vs|
  {
    seq(|ks|, i requires 0 <= i < |ks| => if ks[i].Prefixed? then Counted(vs[i]) else vs[i])
  }

  lemma {:induction false} EmitIsJoin(ks: seq<Kind>, vs: seq<seq<Byte>>)
    requires |ks| == |vs|
    ensures Emit(ks, vs) == Join(Pieces(ks, vs))
  {
    if ks != [] {
      EmitIsJoin(ks[1..], vs[1..]);
      assert Pieces(ks, vs)[1..] == Pieces(ks[1..], vs[1..]);
      hide ToBe;
    }
  }

  /** mailbox-update/1 and /3: version, relay with its length, a 43-byte inbox. */
  lemma UpdateLayout(version: Byte, u: P.MailboxUpdate)
    ensures P.UpdateWire(version, u) == Join([[version], Counted(u.relay), u.inbox])
    ensures P.UpdateOk(u) <==> |u.relay| <= 0xFFFF && |u.inbox| == 43 && ValidUtf8(u.relay) && ValidUtf8(u.inbox)
  {
    hide Emit, Join, Counted, ValidUtf8;
    EmitIsJoin(P.UPDATE_KINDS, P.UpdateFields(version, u));
    assert Pieces(P.UPDATE_KINDS, P.UpdateFields(version, u)) == [[version], Counted(u.relay), u.inbox];
  }

  /** mailbox-update/2: version 2, relay, inbox, a 32-byte contribution. */
  lemma HandoffLayout(h: P.Handoff)
    ensures P.HandoffWire(h) == Join([[2], Counted(h.relay), h.inbox, h.contribution])
    ensures P.HandoffOk(h) <==>
      && |h.relay| <= 0xFFFF && |h.inbox| == 43 && |h.contribution| == 32 && ValidUtf8(h.relay) && ValidUtf8(h.inbox)
  {
    hide Emit, Join, Counted, ValidUtf8;
    EmitIsJoin(P.HANDOFF_KINDS, P.HandoffFields(h));
    assert Pieces(P.HANDOFF_KINDS, P.HandoffFields(h)) == [[2], Counted(h.relay), h.inbox, h.contribution];
  }

  /** pair-ack/2: version 2, bundle, relay, inbox, contribution, a 32-byte proof. */
  lemma AckLayout(a: P.PairAck)
    ensures P.AckWire(a) == Join([[2], Counted(a.bundle), Counted(a.relay), a.inbox, a.contribution, a.proof])
    ensures P.AckOk(a) <==>
      && |a.bundle| <= 0xFFFF && |a.relay| <= 0xFFFF && |a.inbox| == 43 && |a.contribution| == 32 && |a.proof| == 32
      && ValidUtf8(a.relay) && ValidUtf8(a.inbox)
  {
    hide Emit, Join, Counted, ValidUtf8;
    EmitIsJoin(P.ACK_KINDS, P.AckFields(a));
    assert Pieces(P.ACK_KINDS, P.AckFields(a)) ==
      [[2], Counted(a.bundle), Counted(a.relay), a.inbox, a.contribution, a.proof];
  }

  /** The signed part of an offer: version 3, bundle, relay, inbox, secret, 64-bit issue time, 32-bit lifetime. */
  lemma OfferLayout(o: O.Offer)
    ensures O.SignedPart(o) == Join(
      [[3], Counted(o.bundle), Counted(o.relay), o.inbox, o.secret, ToBe(8, o.issuedAt), ToBe(4, o.ttl)])
    ensures O.OfferOk(o) <==>
      && |o.bundle| <= 0xFFFF && |o.relay| <= 0xFFFF && |o.inbox| == 43 && |o.secret| == 32
      && o.issuedAt <= 0xFFFF_FFFF_FFFF_FFFF && o.ttl <= 0xFFFF_FFFF && ValidUtf8(o.relay) && ValidUtf8(o.inbox)
  {
    hide Emit, Join, Counted, ToBe, ValidUtf8;
    EmitIsJoin(O.SIGNED_KINDS, O.SignedFields(o));
    assert Pieces(O.SIGNED_KINDS, O.SignedFields(o)) ==
      [[3], Counted(o.bundle), Counted(o.relay), o.inbox, o.secret, ToBe(8, o.issuedAt), ToBe(4, o.ttl)];
  }

  /** The signature is the last 64 bytes, and what stands before is the signed part. */
  lemma OfferTail(bs: seq<Byte>)
    requires O.ParsedOffer(bs).Ok?
    ensures |bs| >= 64 && bs[..|bs| - 64] == O.SignedPart(O.ParsedOffer(bs).value)
  {
    O.SignedBytesFaithful(bs);
  }

  /** An offer is taken within its window: a lifetime of one second to one day, at most 300 seconds early. */
  lemma OfferWindow(issuedAt: nat, ttl: nat, now: nat)
    requires issuedAt <= U64_MAX && now < U64_MAX
    ensures O.Judge(issuedAt, ttl, now).Accepted? <==>
      1 <= ttl <= 86_400 && issuedAt <= now + 300 && now < issuedAt + ttl
  {
    O.JudgeExact(issuedAt, ttl, now);
  }

  /** A bundle: version 1, then its fields; an absent one-time key is the all-ones id and no bytes. */
  lemma BundleLayout(d: B.Bundle)
    ensures var (id, key) := if d.oneTime.Some? then d.oneTime.value else (0xFFFF_FFFF, []);
      B.BundleWire(d) == Join(
        [[1], Counted(d.address), ToBe(4, d.registrationId), ToBe(4, d.deviceId), Counted(d.identityKey),
         ToBe(4, d.signedId), Counted(d.signedPub), Counted(d.signedSig), ToBe(4, d.kyberId), Counted(d.kyberPub),
         Counted(d.kyberSig), ToBe(4, id), Counted(key)])
    ensures B.Admissible(d) <==>
      d.deviceId == 1 && d.kyberPub != [] && (d.oneTime.Some? ==> d.oneTime.value.0 != 0xFFFF_FFFF)
  {
    hide Emit, Join, Counted, ToBe;
    var (id, key) := if d.oneTime.Some? then d.oneTime.value else (0xFFFF_FFFF, []);
    EmitIsJoin(B.BUNDLE_KINDS, B.FieldsWith(d, key));
    assert Pieces(B.BUNDLE_KINDS, B.FieldsWith(d, key)) ==
      [[1], Counted(d.address), ToBe(4, d.registrationId), ToBe(4, d.deviceId), Counted(d.identityKey),
       ToBe(4, d.signedId), Counted(d.signedPub), Counted(d.signedSig), ToBe(4, d.kyberId), Counted(d.kyberPub),
       Counted(d.kyberSig), ToBe(4, id), Counted(key)];
  }

  /** recovery-hello: version 1, 32-bit generation, 16-byte nonce. */
  lemma HelloLayout(g: nat, nonce: seq<Byte>)
    ensures D.EncodeHello(g, nonce) == [1] + ToBe(4, g) + nonce
    ensures forall bs :: D.ParseHello(bs).Some? <==> |bs| == 21 && bs[0] == 1
  {}

  /** An inner frame: type code, version, 32-bit length, payload, zero bytes up to the bucket. */
  lemma FrameLayout(f: F.InnerFrame, b: nat)
    requires |f.payload| <= 0xFFFF_FFFF && b >= 6 + |f.payload|
    ensures var r := F.Padded(f, b); var n := 6 + |f.payload|;
      && |r| == b && r[1] == f.typeVersion && r[2..6] == ToBe(4, |f.payload|) && r[6..n] == f.payload
      && (forall i :: n <= i < b ==> r[i] == 0)
      && r[0] == (match f.payloadType
                  case Chat => 1 case Posture => 2 case Policy => 3 case Alert => 4
                  case PairAck => 5 case MailboxUpdate => 6 case RecoveryHello => 7)
  {
    hide ToBe;
  }

  // base64url.

  /** The ASCII code of letter `d`: A to Z, a to z, 0 to 9, hyphen, underscore. */
  function Code(d: nat): nat {
    if d < 26 then 65 + d else if d < 52 then 71 + d else if d < 62 then d - 4 else if d == 62 then 45 else 95
  }

  lemma Letters(d: nat)
    requires d < 64
    ensures Base64Url.Symbol(d) as nat == Code(d)
  {}

  /** The 24-bit number of the first three bytes, zeros where there are fewer. */
  function First24(bs: seq<Byte>): nat
    requires bs != []
  {
    var x: nat := bs[0];
    var y: nat := if |bs| > 1 then bs[1] else 0;
    var z: nat := if |bs| > 2 then bs[2] else 0;
    x * 0x1_0000 + y * 0x100 + z
  }

  /** Three bytes are four letters, cut from one 24-bit number; a tail of one or two is filled with zero bits. */
  lemma EncodeLayout(bs: seq<Byte>)
    requires bs != []
    ensures var n := First24(bs); var code := Base64Url.Encode(bs);
      && |code| >= 2 && code[0] as nat == Code(n / 0x4_0000) && code[1] as nat == Code(n / 0x1000 % 64)
      && (|bs| == 1 ==> |code| == 2)
      && (|bs| >= 2 ==> |code| >= 3 && code[2] as nat == Code(n / 64 % 64))
      && (|bs| == 2 ==> |code| == 3)
      && (|bs| >= 3 ==> |code| >= 4 && code[3] as nat == Code(n % 64) && code[4..] == Base64Url.Encode(bs[3..]))
  {
    hide Base64Url.Encode, Base64Url.Symbol, Code, Base64Url.Pack, First24;
    var b0, b1, b2 := bs[0], if |bs| > 1 then bs[1] else 0, if |bs| > 2 then bs[2] else 0;
    var n := First24(bs);
    assert n == Base64Url.Pack(b0, b1, b2) by { PackIs(bs); }
    Base64Url.Slices(b0, b1, b2);
    EncodeSplits(bs);
    Letters(Base64Url.Sextet0(b0));
    Letters(Base64Url.Sextet1(b0, b1));
    Letters(Base64Url.Sextet2(b1, b2));
    Letters(Base64Url.Sextet3(b2));
    hide Base64Url.Sextet0, Base64Url.Sextet1, Base64Url.Sextet2, Base64Url.Sextet3;
    if |bs| < 3 {
      assert bs[..|bs|] == bs && bs[|bs|..] == [];
      assert Base64Url.Encode([]) == [] by { EncodeNothing(); }
    }
  }

  lemma PackIs(bs: seq<Byte>)
    requires bs != []
    ensures First24(bs) == Base64Url.Pack(bs[0], if |bs| > 1 then bs[1] else 0, if |bs| > 2 then bs[2] else 0)
  {}

  lemma EncodeNothing()
    ensures Base64Url.Encode([]) == []
  {}

  lemma EncodeSplits(bs: seq<Byte>)
    requires bs != []
    ensures var n := if |bs| < 3 then |bs| else 3; var g := Base64Url.GroupSextets(bs[..n]);
      && |Base64Url.Encode(bs)| == |g| + |Base64Url.Encode(bs[n..])|
      && (forall i :: 0 <= i < |g| ==> Base64Url.Encode(bs)[i] == Base64Url.Symbol(g[i]))
      && Base64Url.Encode(bs)[|g|..] == Base64Url.Encode(bs[n..])
  {
    hide Base64Url.Symbol;
  }
}
