/** Derived mailbox ids and the recovery-hello payload. HMAC under the recovery root is an abstract function `prf`. */
module DerivedIds {
  import opened Bytes
  import opened Recovery
  import Base64Url

  const HELLO_VERSION: Byte := 1
  const NONCE_LEN: nat := 16

  predicate Ascii(s: string) { forall i :: 0 <= i < |s| ==> s[i] as nat < 128 }

  function AsciiBytes(s: string): (bs: seq<Byte>)
    requires Ascii(s)
    ensures |bs| == |s|
  {
    seq(|s|, i requires 0 <= i < |s| => s[i] as nat)
  }

  const MAILBOX_LABEL := "titlan-recovery-mailbox-v1"

  function RoleLabel(r: Role): (s: string)
    ensures Ascii(s)
  {
    match r
    case Offerer => "offerer"
    case Responder => "responder"
  }

  /** What is fed to the PRF for the mailbox `r` owns at generation `g`. */
  function Info(r: Role, g: nat): seq<Byte> {
    assert Ascii(MAILBOX_LABEL);
    AsciiBytes(MAILBOX_LABEL) + AsciiBytes(RoleLabel(r)) + ToBe(4, g)
  }

  /** The bytes: the label, "offerer" or "responder" after the owner's role, and the generation, high byte first. */
  lemma InfoBytes(r: Role, g: nat)
    requires g <= U32_MAX
    ensures Info(r, g) ==
      [116, 105, 116, 108, 97, 110, 45, 114, 101, 99, 111, 118, 101, 114, 121, 45]
      + [109, 97, 105, 108, 98, 111, 120, 45, 118, 49]
      + (match r
         case Offerer => [111, 102, 102, 101, 114, 101, 114]
         case Responder => [114, 101, 115, 112, 111, 110, 100, 101, 114])
      + [g / 0x100_0000, g / 0x1_0000 % 0x100, g / 0x100 % 0x100, g % 0x100]
  {
    assert Ascii(MAILBOX_LABEL);
    assert AsciiBytes(MAILBOX_LABEL) ==
      [116, 105, 116, 108, 97, 110, 45, 114, 101, 99, 111, 118, 101, 114, 121, 45]
      + [109, 97, 105, 108, 98, 111, 120, 45, 118, 49];
    assert AsciiBytes(RoleLabel(Offerer)) == [111, 102, 102, 101, 114, 101, 114];
    assert AsciiBytes(RoleLabel(Responder)) == [114, 101, 115, 112, 111, 110, 100, 101, 114];
    FourBytes(g);
  }

  lemma FourBytes(g: nat)
    requires g <= U32_MAX
    ensures ToBe(4, g) == [g / 0x100_0000, g / 0x1_0000 % 0x100, g / 0x100 % 0x100, g % 0x100]
  {
    var a, b, c := g / 256, g / 256 / 256, g / 256 / 256 / 256;
    assert b == g / 0x1_0000 && c == g / 0x100_0000 < 256;
    assert ToBe(1, c) == ToBe(0, c / 256) + [c % 256] == [c];
    assert ToBe(2, b) == [c] + [b % 256];
    assert ToBe(3, a) == [c] + [b % 256] + [a % 256];
  }

  /** Owner and generation can be read back from the input: no two share one. */
  lemma InfoInjective(r: Role, g: nat, r': Role, g': nat)
    requires g <= U32_MAX && g' <= U32_MAX && Info(r, g) == Info(r', g')
    ensures r == r' && g == g'
  {
    PowWidths();
    FromBeToBe(4, g);
    FromBeToBe(4, g');
    assert |Info(r, g)| == |MAILBOX_LABEL| + |RoleLabel(r)| + 4;
    assert |Info(r', g')| == |MAILBOX_LABEL| + |RoleLabel(r')| + 4;
    assert Info(r, g)[|Info(r, g)| - 4..] == ToBe(4, g);
    assert Info(r', g')[|Info(r', g')| - 4..] == ToBe(4, g');
  }

  /** 32-byte outputs, no two equal on the inputs used here. */
  ghost predicate Prf(prf: seq<Byte> -> seq<Byte>) {
    && (forall r, g: nat :: |prf(Info(r, g))| == 32)
    && (forall r, g: nat, r', g': nat :: prf(Info(r, g)) == prf(Info(r', g')) ==> Info(r, g) == Info(r', g'))
  }

  function MailboxId(prf: seq<Byte> -> seq<Byte>, r: Role, g: nat): string { Base64Url.Encode(prf(Info(r, g))) }

  method DeriveMailboxId(prf: seq<Byte> -> seq<Byte>, r: Role, g: nat) returns (id: string)
    ensures id == MailboxId(prf, r, g)
  {
    assert Ascii(MAILBOX_LABEL);
    var info := AsciiBytes(MAILBOX_LABEL);
    info := info + AsciiBytes(RoleLabel(r));
    info := info + ToBe(4, g);
    id := Base64Url.EncodeLoop(prf(info));
  }

  /** Derived ids pass the relay's shape test and differ for every two (owner, generation) pairs. */
  lemma DerivedDistinct(prf: seq<Byte> -> seq<Byte>, r: Role, g: nat, r': Role, g': nat)
    requires Prf(prf) && g <= U32_MAX && g' <= U32_MAX
    ensures Base64Url.MailboxIdShapeOk(MailboxId(prf, r, g))
    ensures MailboxId(prf, r, g) == MailboxId(prf, r', g') <==> r == r' && g == g'
  {
    Base64Url.MailboxIds(prf(Info(r, g)), prf(Info(r', g')));
    if MailboxId(prf, r, g) == MailboxId(prf, r', g') {
      InfoInjective(r, g, r', g');
    }
  }

  // recovery-hello.

  function EncodeHello(g: nat, nonce: seq<Byte>): seq<Byte> { [HELLO_VERSION] + ToBe(4, g) + nonce }

  function ParseHello(bs: seq<Byte>): Option<(nat, seq<Byte>)> {
    if |bs| != 1 + 4 + NONCE_LEN || bs[0] != HELLO_VERSION then None else Some((FromBe(bs[1..5]), bs[5..]))
  }

  /** A hello is read exactly when it is the encoding of a 32-bit generation and a 16-byte nonce. */
  lemma HelloExact(bs: seq<Byte>, g: nat, nonce: seq<Byte>)
    ensures ParseHello(bs) == Some((g, nonce)) <==> g <= U32_MAX && |nonce| == NONCE_LEN && bs == EncodeHello(g, nonce)
  {
    PowWidths();
    if |bs| == 21 {
      ToBeFromBe(bs[1..5]);
      assert bs == [bs[0]] + bs[1..5] + bs[5..];
    }
    if g <= U32_MAX && |nonce| == NONCE_LEN && bs == EncodeHello(g, nonce) {
      FromBeToBe(4, g);
      assert bs[1..5] == ToBe(4, g) && bs[5..] == nonce;
    }
  }
}
