/** Bytes, big-endian integers and the UTF-8 validity rule that Rust's `String::from_utf8` applies. */
module Bytes {

  type Byte = x: nat | x < 256

  datatype Option<+T> = None | Some(value: T) {
    predicate IsFailure() { None? }
    function PropagateFailure<U>(): Option<U>
      requires None?
    {
      None
    }
    function Extract(): T
      requires Some?
    {
      value
    }
  }

  const U16_MAX: nat := 0xFFFF
  const U32_MAX: nat := 0xFFFF_FFFF
  const U64_MAX: nat := 0xFFFF_FFFF_FFFF_FFFF

  function Pow256(n: nat): (p: nat)
    ensures p > 0
  {
    if n == 0 then 1 else 256 * Pow256(n - 1)
  }

  lemma PowWidths()
    ensures Pow256(1) == 256
    ensures Pow256(2) == U16_MAX + 1
    ensures Pow256(4) == U32_MAX + 1
    ensures Pow256(8) == U64_MAX + 1
  {
    assert Pow256(3) == 0x100_0000;
    assert Pow256(5) == 0x100_0000_0000;
    assert Pow256(7) == 0x100_0000_0000_0000;
  }

  /** `to_be_bytes` of a `width`-byte unsigned integer. */
  function ToBe(width: nat, v: nat): (bs: seq<Byte>)
    ensures |bs| == width
  {
    if width == 0 then [] else ToBe(width - 1, v / 256) + [v % 256]
  }

  /** `from_be_bytes`. */
  function FromBe(bs: seq<Byte>): nat {
    if bs == [] then 0 else FromBe(bs[..|bs| - 1]) * 256 + bs[|bs| - 1]
  }

  lemma {:induction false} FromBeToBe(width: nat, v: nat)
    requires v < Pow256(width)
    ensures FromBe(ToBe(width, v)) == v
  {
    if width > 0 {
      FromBeToBe(width - 1, v / 256);
      assert ToBe(width, v)[..width - 1] == ToBe(width - 1, v / 256);
    }
  }

  lemma {:induction false} ToBeFromBe(bs: seq<Byte>)
    ensures FromBe(bs) < Pow256(|bs|)
    ensures ToBe(|bs|, FromBe(bs)) == bs
  {
    if bs != [] {
      var front, last := bs[..|bs| - 1], bs[|bs| - 1];
      ToBeFromBe(front);
      assert FromBe(bs) / 256 == FromBe(front);
      assert FromBe(bs) % 256 == last;
      assert bs == front + [last];
    }
  }

  /** High byte first: byte `i` is the digit of weight 256 to the number of bytes behind it. */
  lemma {:induction false} ToBeAt(width: nat, v: nat, i: nat)
    requires i < width
    ensures ToBe(width, v)[i] == v / Pow256(width - 1 - i) % 256
  {
    if i < width - 1 {
      ToBeAt(width - 1, v / 256, i);
      DivDiv(v, Pow256(width - 2 - i));
    }
  }

  lemma DivDiv(n: nat, p: nat)
    requires p > 0
    ensures n / 256 / p == n / (256 * p)
  {
    var q, r := n / 256 / p, n / 256 % p;
    assert n / 256 == p * q + r;
    assert n == (256 * p) * q + (256 * r + n % 256);
    assert 256 * r + n % 256 < 256 * p;
    Quotient(n, 256 * p, q, 256 * r + n % 256);
  }

  lemma Quotient(n: nat, d: nat, q: nat, r: nat)
    requires n == d * q + r && r < d
    ensures n / d == q
  {
    var gap: int := q - n / d;
    assert d * gap == n % d - r;
    assert gap >= 1 ==> d * gap >= d;
    assert gap <= -1 ==> d * gap + d <= 0;
  }

  predicate Continuation(b: Byte) { 0x80 <= b <= 0xBF }

  /** The length in bytes of the well-formed UTF-8 scalar at the front of `bs`, or 0 when there is none. */
  function ScalarWidth(bs: seq<Byte>): (n: nat)
    ensures n <= |bs|
  {
    if |bs| >= 1 && bs[0] <= 0x7F then 1
    else if |bs| >= 2 && 0xC2 <= bs[0] <= 0xDF && Continuation(bs[1]) then 2
    else if |bs| >= 3 && Continuation(bs[1]) && Continuation(bs[2]) &&
            ((bs[0] == 0xE0 && bs[1] >= 0xA0) || 0xE1 <= bs[0] <= 0xEC ||
             (bs[0] == 0xED && bs[1] <= 0x9F) || 0xEE <= bs[0] <= 0xEF) then 3
    else if |bs| >= 4 && Continuation(bs[1]) && Continuation(bs[2]) && Continuation(bs[3]) &&
            ((bs[0] == 0xF0 && bs[1] >= 0x90) || 0xF1 <= bs[0] <= 0xF3 ||
             (bs[0] == 0xF4 && bs[1] <= 0x8F)) then 4
    else 0
  }

  /** A Rust `str` is exactly a byte string that passes this test. */
  predicate ValidUtf8(bs: seq<Byte>) {
    bs == [] || (ScalarWidth(bs) > 0 && ValidUtf8(bs[ScalarWidth(bs)..]))
  }

  // UTF-8 as the encoding of Unicode scalar values.

  /** Code points but the surrogates. */
  predicate IsScalar(c: nat) { c <= 0xD7FF || 0xE000 <= c <= 0x10_FFFF }

  function EncodeScalar(c: nat): (bs: seq<Byte>)
    requires IsScalar(c)
    ensures 1 <= |bs| <= 4
  {
    if c <= 0x7F then [c]
    else if c <= 0x7FF then [0xC0 + c / 64, 0x80 + c % 64]
    else if c <= 0xFFFF then [0xE0 + c / 4096, 0x80 + c / 64 % 64, 0x80 + c % 64]
    else [0xF0 + c / 262144, 0x80 + c / 4096 % 64, 0x80 + c / 64 % 64, 0x80 + c % 64]
  }

  function EncodeScalars(cs: seq<nat>): seq<Byte>
    requires forall i :: 0 <= i < |cs| ==> IsScalar(cs[i])
  {
    if cs == [] then [] else EncodeScalar(cs[0]) + EncodeScalars(cs[1..])
  }

  /** The code point of a well-formed front. */
  function ScalarAt(bs: seq<Byte>): nat
    requires ScalarWidth(bs) > 0
  {
    var n := ScalarWidth(bs);
    var a: int, b: int := bs[0], if n > 1 then bs[1] - 0x80 else 0;
    var c: int, d: int := if n > 2 then bs[2] - 0x80 else 0, if n > 3 then bs[3] - 0x80 else 0;
    if n == 1 then a
    else if n == 2 then (a - 0xC0) * 64 + b
    else if n == 3 then ((a - 0xE0) * 64 + b) * 64 + c
    else (((a - 0xF0) * 64 + b) * 64 + c) * 64 + d
  }

  lemma Base64Digits(n: nat, a: nat, b: nat, c: nat, d: nat)
    requires n == ((a * 64 + b) * 64 + c) * 64 + d && b < 64 && c < 64 && d < 64
    ensures n % 64 == d && n / 64 % 64 == c && n / 4096 % 64 == b && n / 262144 == a
  {
    assert n / 64 == (a * 64 + b) * 64 + c;
    assert n / 4096 == a * 64 + b;
  }

  /** A front is well formed if and only if it is the encoding of a scalar value, which is then its width. */
  lemma ScalarSound(bs: seq<Byte>)
    requires ScalarWidth(bs) > 0
    ensures IsScalar(ScalarAt(bs)) && bs[..ScalarWidth(bs)] == EncodeScalar(ScalarAt(bs))
  {
    var n := ScalarWidth(bs);
    if n == 2 {
      Base64Digits(ScalarAt(bs), 0, 0, bs[0] - 0xC0, bs[1] - 0x80);
    } else if n == 3 {
      Base64Digits(ScalarAt(bs), 0, bs[0] - 0xE0, bs[1] - 0x80, bs[2] - 0x80);
    } else if n == 4 {
      Base64Digits(ScalarAt(bs), bs[0] - 0xF0, bs[1] - 0x80, bs[2] - 0x80, bs[3] - 0x80);
    }
  }

  lemma ScalarComplete(c: nat, rest: seq<Byte>)
    requires IsScalar(c)
    ensures ScalarWidth(EncodeScalar(c) + rest) == |EncodeScalar(c)|
  {
    assert c / 4096 == c / 64 / 64 && c / 262144 == c / 64 / 64 / 64;
  }

  /** Valid UTF-8 is exactly what encodes a sequence of scalar values. */
  lemma {:induction false} Utf8Exact(bs: seq<Byte>)
    ensures ValidUtf8(bs) <==>
      exists cs: seq<nat> :: (forall i :: 0 <= i < |cs| ==> IsScalar(cs[i])) && EncodeScalars(cs) == bs
    decreases |bs|
  {
    if ValidUtf8(bs) {
      var cs := ScalarsOf(bs);
      ScalarsOfEncode(bs);
    }
    forall cs: seq<nat> | (forall i :: 0 <= i < |cs| ==> IsScalar(cs[i])) && EncodeScalars(cs) == bs
      ensures ValidUtf8(bs)
    {
      EncodedIsValid(cs);
    }
  }

  function ScalarsOf(bs: seq<Byte>): seq<nat>
    requires ValidUtf8(bs)
  {
    if bs == [] then [] else [ScalarAt(bs)] + ScalarsOf(bs[ScalarWidth(bs)..])
  }

  lemma {:induction false} ScalarsOfEncode(bs: seq<Byte>)
    requires ValidUtf8(bs)
    ensures var cs := ScalarsOf(bs); (forall i :: 0 <= i < |cs| ==> IsScalar(cs[i])) && EncodeScalars(cs) == bs
    decreases |bs|
  {
    hide ScalarWidth, ScalarAt, EncodeScalar, IsScalar;
    if bs != [] {
      var n := ScalarWidth(bs);
      ScalarSound(bs);
      ScalarsOfEncode(bs[n..]);
      assert bs == bs[..n] + bs[n..];
      assert ([ScalarAt(bs)] + ScalarsOf(bs[n..]))[1..] == ScalarsOf(bs[n..]);
    }
  }

  lemma {:induction false} EncodedIsValid(cs: seq<nat>)
    requires forall i :: 0 <= i < |cs| ==> IsScalar(cs[i])
    ensures ValidUtf8(EncodeScalars(cs))
  {
    hide ScalarWidth, EncodeScalar, IsScalar;
    if cs != [] {
      var rest := EncodeScalars(cs[1..]);
      ScalarComplete(cs[0], rest);
      EncodedIsValid(cs[1..]);
      var bs := EncodeScalar(cs[0]) + rest;
      assert bs[|EncodeScalar(cs[0])|..] == rest;
    }
  }
}
