/**
 The unpadded base64url text form of mailbox ids and pairing links (section 5 of RFC 4648):
 one encoder, which the repository writes out three times, and its one total decoder.
 Text is letters over sextets; bytes and sextets regroup three to four.
 */
module Base64Url {
  import opened Bytes

  type Sextet = x: nat | x < 64

  // Letters.

  /** The 64-letter alphabet, in order. */
  function Symbol(d: Sextet): char {
    if d < 26 then ('A' as int + d) as char
    else if d < 52 then ('a' as int + (d - 26)) as char
    else if d < 62 then ('0' as int + (d - 52)) as char
    else if d == 62 then '-' else '_'
  }

  function Value(c: char): Option<Sextet> {
    if 'A' <= c <= 'Z' then Some(c as int - 'A' as int)
    else if 'a' <= c <= 'z' then Some(c as int - 'a' as int + 26)
    else if '0' <= c <= '9' then Some(c as int - '0' as int + 52)
    else if c == '-' then Some(62)
    else if c == '_' then Some(63) else None
  }

  predicate InAlphabet(s: string) {
    forall i :: 0 <= i < |s| ==> Value(s[i]).Some?
  }

  function Symbols(ds: seq<Sextet>): (s: string)
    ensures |s| == |ds| && forall i :: 0 <= i < |ds| ==> s[i] == Symbol(ds[i])
  {
    seq(|ds|, i requires 0 <= i < |ds| => Symbol(ds[i]))
  }

  function Values(s: string): (ds: seq<Sextet>)
    requires InAlphabet(s)
    ensures |ds| == |s| && forall i :: 0 <= i < |s| ==> ds[i] == Value(s[i]).value
  {
    seq(|s|, i requires 0 <= i < |s| => Value(s[i]).value)
  }

  lemma SymbolValue(d: Sextet)
    ensures Value(Symbol(d)) == Some(d)
  {}

  lemma ValueSymbol(c: char)
    requires Value(c).Some?
    ensures Symbol(Value(c).value) == c
  {}

  lemma ValuesSymbols(ds: seq<Sextet>)
    ensures InAlphabet(Symbols(ds)) && Values(Symbols(ds)) == ds
  {
    forall i | 0 <= i < |ds|
      ensures Value(Symbols(ds)[i]) == Some(ds[i])
    {
      SymbolValue(ds[i]);
    }
  }

  lemma SymbolsValues(s: string, ds: seq<Sextet>)
    requires InAlphabet(s)
    ensures Symbols(ds) == s <==> ds == Values(s)
  {
    if Symbols(ds) == s {
      ValuesSymbols(ds);
    }
    forall i | 0 <= i < |s|
      ensures Symbol(Values(s)[i]) == s[i]
    {
      ValueSymbol(s[i]);
    }
    assert Symbols(Values(s)) == s;
  }

  // Regrouping. Three bytes are one 24-bit number; its sextets cut it at bits 18, 12 and 6.

  function Sextet0(b0: Byte): Sextet { b0 / 4 }
  function Sextet1(b0: Byte, b1: Byte): Sextet {
    var high: nat := b0 % 4;
    high * 16 + b1 / 16
  }
  function Sextet2(b1: Byte, b2: Byte): Sextet {
    var high: nat := b1 % 16;
    high * 4 + b2 / 64
  }
  function Sextet3(b2: Byte): Sextet { b2 % 64 }

  function Byte0(d0: Sextet, d1: Sextet): Byte {
    var high: nat := d0;
    high * 4 + d1 / 16
  }
  function Byte1(d1: Sextet, d2: Sextet): Byte {
    var high: nat := d1 % 16;
    high * 16 + d2 / 4
  }
  function Byte2(d2: Sextet, d3: Sextet): Byte {
    var high: nat := d2 % 4;
    high * 64 + d3
  }

  /** The sextets of one group of up to three bytes, padded with zero bits. */
  function GroupSextets(g: seq<Byte>): (ds: seq<Sextet>)
    requires 1 <= |g| <= 3
    ensures |ds| == |g| + 1
  {
    if |g| == 1 then [Sextet0(g[0]), Sextet1(g[0], 0)]
    else if |g| == 2 then [Sextet0(g[0]), Sextet1(g[0], g[1]), Sextet2(g[1], 0)]
    else [Sextet0(g[0]), Sextet1(g[0], g[1]), Sextet2(g[1], g[2]), Sextet3(g[2])]
  }

  /** The whole bytes of one group of two to four sextets; the bits beyond them are dropped. */
  function GroupBytes(ds: seq<Sextet>): (g: seq<Byte>)
    requires 2 <= |ds| <= 4
    ensures |g| == |ds| - 1
  {
    if |ds| == 2 then [Byte0(ds[0], ds[1])]
    else if |ds| == 3 then [Byte0(ds[0], ds[1]), Byte1(ds[1], ds[2])]
    else [Byte0(ds[0], ds[1]), Byte1(ds[1], ds[2]), Byte2(ds[2], ds[3])]
  }

  function Chunk(n: nat, size: nat): nat { if n < size then n else size }

  function ToSextets(bs: seq<Byte>): seq<Sextet> {
    if bs == [] then []
    else var n := Chunk(|bs|, 3); GroupSextets(bs[..n]) + ToSextets(bs[n..])
  }

  function FromSextets(ds: seq<Sextet>): seq<Byte>
    requires |ds| % 4 != 1
  {
    if ds == [] then []
    else var n := Chunk(|ds|, 4); GroupBytes(ds[..n]) + FromSextets(ds[n..])
  }

  function Encode(bs: seq<Byte>): string { Symbols(ToSextets(bs)) }

  function Decode(s: string): Option<seq<Byte>> {
    if InAlphabet(s) && |s| % 4 != 1 then Some(FromSextets(Values(s))) else None
  }

  // Arithmetic of one group, one small fact at a time.

  lemma RepackBytes(b0: Byte, b1: Byte, b2: Byte)
    ensures Byte0(Sextet0(b0), Sextet1(b0, b1)) == b0
    ensures Byte1(Sextet1(b0, b1), Sextet2(b1, b2)) == b1
    ensures Byte2(Sextet2(b1, b2), Sextet3(b2)) == b2
  {
    assert Sextet1(b0, b1) / 16 == b0 % 4;
    assert Sextet1(b0, b1) % 16 == b1 / 16;
    assert Sextet2(b1, b2) / 4 == b1 % 16;
    assert Sextet2(b1, b2) % 4 == b2 / 64;
  }

  lemma RepackHead(d0: Sextet, d1: Sextet)
    ensures Sextet0(Byte0(d0, d1)) == d0
    ensures Sextet1(Byte0(d0, d1), 0) == d1 - d1 % 16
  {
    assert Byte0(d0, d1) % 4 == d1 / 16;
  }

  lemma RepackMiddle(d0: Sextet, d1: Sextet, d2: Sextet)
    ensures Sextet1(Byte0(d0, d1), Byte1(d1, d2)) == d1
    ensures Sextet2(Byte1(d1, d2), 0) == d2 - d2 % 4
  {
    assert Byte0(d0, d1) % 4 == d1 / 16;
    assert Byte1(d1, d2) / 16 == d1 % 16;
    assert Byte1(d1, d2) % 16 == d2 / 4;
  }

  lemma RepackTail(d1: Sextet, d2: Sextet, d3: Sextet)
    ensures Sextet2(Byte1(d1, d2), Byte2(d2, d3)) == d2
    ensures Sextet3(Byte2(d2, d3)) == d3
  {
    assert Byte1(d1, d2) % 16 == d2 / 4;
    assert Byte2(d2, d3) / 64 == d2 % 4;
  }

  lemma GroupBytesOfSextets(g: seq<Byte>)
    requires 1 <= |g| <= 3
    ensures GroupBytes(GroupSextets(g)) == g
  {
    hide Byte0, Byte1, Byte2, Sextet0, Sextet1, Sextet2, Sextet3;
    RepackBytes(g[0], if |g| > 1 then g[1] else 0, if |g| > 2 then g[2] else 0);
  }

  /** The unused low bits of the last sextet are zero. */
  predicate CanonicalTail(ds: seq<Sextet>) {
    match |ds| % 4
    case 2 => ds[|ds| - 1] % 16 == 0
    case 3 => ds[|ds| - 1] % 4 == 0
    case _ => true
  }

  lemma GroupSextetsOfBytes(ds: seq<Sextet>)
    requires 2 <= |ds| <= 4
    ensures GroupSextets(GroupBytes(ds)) == ds <==> CanonicalTail(ds)
  {
    hide Byte0, Byte1, Byte2, Sextet0, Sextet1, Sextet2, Sextet3;
    RepackHead(ds[0], ds[1]);
    if |ds| == 2 {
      assert GroupSextets(GroupBytes(ds)) == [ds[0], ds[1] - ds[1] % 16];
    } else if |ds| == 3 {
      RepackMiddle(ds[0], ds[1], ds[2]);
      assert GroupSextets(GroupBytes(ds)) == [ds[0], ds[1], ds[2] - ds[2] % 4];
    } else {
      RepackMiddle(ds[0], ds[1], ds[2]);
      RepackTail(ds[1], ds[2], ds[3]);
      assert GroupSextets(GroupBytes(ds)) == [ds[0], ds[1], ds[2], ds[3]];
    }
  }

  // The regrouping laws for whole strings.

  lemma {:induction false} FromToSextets(bs: seq<Byte>)
    ensures |ToSextets(bs)| == |bs| / 3 * 4 + (if |bs| % 3 == 0 then 0 else |bs| % 3 + 1)
    ensures FromSextets(ToSextets(bs)) == bs
  {
    hide GroupSextets, GroupBytes;
    if bs != [] {
      var n := Chunk(|bs|, 3);
      FromToSextets(bs[n..]);
      GroupBytesOfSextets(bs[..n]);
      var ds := ToSextets(bs);
      assert ds[..n + 1] == GroupSextets(bs[..n]) && ds[n + 1..] == ToSextets(bs[n..]);
      assert bs == bs[..n] + bs[n..];
    }
  }

  lemma {:induction false} ToFromSextets(ds: seq<Sextet>)
    requires |ds| % 4 != 1
    ensures ToSextets(FromSextets(ds)) == ds <==> CanonicalTail(ds)
  {
    hide GroupSextets, GroupBytes;
    if ds == [] {
    } else if |ds| <= 4 {
      GroupSextetsOfBytes(ds);
      assert ds[..|ds|] == ds && GroupBytes(ds) + [] == GroupBytes(ds);
      ToSextetsFront(GroupBytes(ds), [], false);
      assert GroupSextets(GroupBytes(ds)) + [] == GroupSextets(GroupBytes(ds));
    } else {
      ToFromSextets(ds[4..]);
      var head, rest := GroupBytes(ds[..4]), FromSextets(ds[4..]);
      GroupSextetsOfBytes(ds[..4]);
      ToSextetsFront(head, rest, true);
      JoinEqual(GroupSextets(head), ToSextets(rest), ds, 4);
      CanonicalRest(ds);
    }
  }

  lemma CanonicalRest(ds: seq<Sextet>)
    requires |ds| > 4
    ensures CanonicalTail(ds) <==> CanonicalTail(ds[4..])
  {
    assert ds[|ds| - 1] == ds[4..][|ds[4..]| - 1];
    assert |ds| % 4 == |ds[4..]| % 4;
  }

  lemma ToSextetsFront(head: seq<Byte>, rest: seq<Byte>, more: bool)
    requires 1 <= |head| <= 3 && (if more then |head| == 3 else rest == [])
    ensures ToSextets(head + rest) == GroupSextets(head) + ToSextets(rest)
  {
    var bs := head + rest;
    assert bs[..|head|] == head && bs[|head|..] == rest;
  }

  lemma JoinEqual(a: seq<Sextet>, b: seq<Sextet>, ds: seq<Sextet>, n: nat)
    requires |a| == n <= |ds|
    ensures a + b == ds <==> a == ds[..n] && b == ds[n..]
  {
    assert (a + b)[..n] == a && (a + b)[n..] == b;
    assert ds == ds[..n] + ds[n..];
  }

  // The loops of the source, tied to the functions above.

  function Pack(b0: Byte, b1: Byte, b2: Byte): nat {
    var x: nat, y: nat, z: nat := b0, b1, b2;
    x * 65536 + y * 256 + z
  }

  lemma By64(n: nat, q: nat, r: nat)
    requires n == q * 64 + r && r < 64
    ensures n / 64 == q && n % 64 == r
  {}

  lemma By256(n: nat, q: nat, r: nat)
    requires n == q * 256 + r && r < 256
    ensures n / 256 == q && n % 256 == r
  {}

  lemma By4096(n: nat, q: nat, r: nat)
    requires n == q * 4096 + r && r < 4096
    ensures n / 4096 == q
  {}

  lemma By65536(n: nat, q: nat, r: nat)
    requires n == q * 65536 + r && r < 65536
    ensures n / 65536 == q
  {}

  lemma By262144(n: nat, q: nat, r: nat)
    requires n == q * 262144 + r && r < 262144
    ensures n / 262144 == q
  {}

  lemma SlicesOf(n: nat, s0: nat, s1: nat, s2: nat, s3: nat)
    requires n == s0 * 262144 + s1 * 4096 + s2 * 64 + s3
    requires s0 < 64 && s1 < 64 && s2 < 64 && s3 < 64
    ensures n / 262144 == s0 && n / 4096 % 64 == s1 && n / 64 % 64 == s2 && n % 64 == s3
  {
    By262144(n, s0, s1 * 4096 + s2 * 64 + s3);
    By4096(n, s0 * 64 + s1, s2 * 64 + s3);
    By64(s0 * 64 + s1, s0, s1);
    By64(n, s0 * 4096 + s1 * 64 + s2, s3);
    By64(s0 * 4096 + s1 * 64 + s2, s0 * 64 + s1, s2);
  }

  lemma BytesOf(n: nat, b0: nat, b1: nat, b2: nat)
    requires n == b0 * 65536 + b1 * 256 + b2
    requires b0 < 256 && b1 < 256 && b2 < 256
    ensures n / 65536 % 256 == b0 && n / 256 % 256 == b1 && n % 256 == b2
  {
    By65536(n, b0, b1 * 256 + b2);
    By256(n, b0 * 256 + b1, b2);
    By256(b0 * 256 + b1, b0, b1);
  }

  /** The source's shifts cut the packed number into the four sextets. */
  lemma Slices(b0: Byte, b1: Byte, b2: Byte)
    ensures Pack(b0, b1, b2) / 262144 == Sextet0(b0)
    ensures Pack(b0, b1, b2) / 4096 % 64 == Sextet1(b0, b1)
    ensures Pack(b0, b1, b2) / 64 % 64 == Sextet2(b1, b2)
    ensures Pack(b0, b1, b2) % 64 == Sextet3(b2)
  {
    SlicesOf(Pack(b0, b1, b2), Sextet0(b0), Sextet1(b0, b1), Sextet2(b1, b2), Sextet3(b2));
  }

  /** The bytes of a left-aligned 24-bit number built from four sextets. */
  lemma Unslice(d0: Sextet, d1: Sextet, d2: Sextet, d3: Sextet, n: nat)
    requires var x: nat, y: nat, z: nat, t: nat := d0, d1, d2, d3; n == ((x * 64 + y) * 64 + z) * 64 + t
    ensures n / 65536 % 256 == Byte0(d0, d1)
    ensures n / 256 % 256 == Byte1(d1, d2)
    ensures n % 256 == Byte2(d2, d3)
  {
    BytesOf(n, Byte0(d0, d1), Byte1(d1, d2), Byte2(d2, d3));
  }

  method EncodeLoop(data: seq<Byte>) returns (out: string)
    ensures out == Encode(data)
  {
    hide GroupSextets, Symbol, ToSextets;
    out := "";
    ghost var done: seq<Sextet> := [];
    var i := 0;
    assert data[0..] == data;
    while i < |data|
      invariant 0 <= i <= |data|
      invariant out == Symbols(done) && done + ToSextets(data[i..]) == ToSextets(data)
    {
      var end := if i + 3 <= |data| then i + 3 else |data|;
      var letters := EncodeChunk(data[i..end]);
      ghost var group, rest := GroupSextets(data[i..end]), ToSextets(data[end..]);
      ToSextetsStep(data, i, end);
      assert done + (group + rest) == (done + group) + rest;
      SymbolsConcat(done, group);
      done := done + group;
      out := out + letters;
      i := end;
    }
    assert ToSextets(data[i..]) == [] by { ToSextetsStep(data, i, i); }
  }

  lemma ToSextetsStep(data: seq<Byte>, i: nat, end: nat)
    requires i <= |data| && end == if i + 3 <= |data| then i + 3 else |data|
    ensures i == |data| ==> ToSextets(data[i..]) == []
    ensures i < |data| ==> ToSextets(data[i..]) == GroupSextets(data[i..end]) + ToSextets(data[end..])
  {
    hide GroupSextets;
    if i < |data| {
      assert data[i..][..end - i] == data[i..end] && data[i..][end - i..] == data[end..];
    }
  }

  lemma SymbolsConcat(a: seq<Sextet>, b: seq<Sextet>)
    ensures Symbols(a + b) == Symbols(a) + Symbols(b)
  {
    hide Symbol;
  }

  method EncodeChunk(chunk: seq<Byte>) returns (out: string)
    requires 1 <= |chunk| <= 3
    ensures out == Symbols(GroupSextets(chunk))
  {
    var b0: Byte := chunk[0];
    var b1: Byte := if |chunk| > 1 then chunk[1] else 0;
    var b2: Byte := if |chunk| > 2 then chunk[2] else 0;
    var n := Pack(b0, b1, b2);
    Slices(b0, b1, b2);
    out := [Symbol(n / 262144)];
    out := out + [Symbol(n / 4096 % 64)];
    if |chunk| > 1 {
      out := out + [Symbol(n / 64 % 64)];
    }
    if |chunk| > 2 {
      out := out + [Symbol(n % 64)];
    }
  }

  lemma SuffixMod(n: nat, i: nat)
    requires i % 4 == 0 && i <= n
    ensures (n - i) % 4 == n % 4
  {}

  lemma FromSextetsStep(ds: seq<Sextet>, i: nat, end: nat)
    requires |ds| % 4 != 1 && i % 4 == 0 && i < |ds| && end == if i + 4 <= |ds| then i + 4 else |ds|
    ensures |ds[i..]| % 4 != 1 && |ds[end..]| % 4 != 1 && end - i >= 2
    ensures FromSextets(ds[i..]) == GroupBytes(ds[i..end]) + FromSextets(ds[end..])
  {
    hide GroupBytes;
    SuffixMod(|ds|, i);
    if end < |ds| {
      SuffixMod(|ds|, end);
    }
    assert ds[i..][..end - i] == ds[i..end] && ds[i..][end - i..] == ds[end..];
  }

  method DecodeLoop(s: string) returns (r: Option<seq<Byte>>)
    ensures r == Decode(s)
  {
    hide Value, FromSextets, GroupBytes;
    var out: seq<Byte> := [];
    var i := 0;
    ghost var ok := InAlphabet(s) && |s| % 4 != 1;
    ghost var all: seq<Sextet> := if ok then Values(s) else [];
    assert all[0..] == all;
    while i < |s|
      invariant 0 <= i <= |s|
      invariant i % 4 == 0 || i == |s|
      invariant forall k :: 0 <= k < i ==> Value(s[k]).Some?
      invariant i == |s| ==> |s| % 4 != 1
      invariant ok ==> |all[i..]| % 4 != 1 && FromSextets(all) == out + FromSextets(all[i..])
    {
      var end := if i + 4 <= |s| then i + 4 else |s|;
      var chunk := s[i..end];
      SuffixMod(|s|, i);
      assert ok ==> InAlphabet(chunk) && |chunk| > 1;
      var got := DecodeChunk(chunk);
      if got.None? {
        return None;
      }
      assert forall k :: i <= k < end ==> s[k] == chunk[k - i];
      if ok {
        FromSextetsStep(all, i, end);
        assert all[i..end] == Values(chunk);
      }
      out := out + got.value;
      i := end;
    }
    assert ok && all[i..] == [];
    FromSextetsEmpty();
    assert out + [] == out;
    return Some(out);
  }

  lemma FromSextetsEmpty()
    ensures FromSextets([]) == []
  {}

  /** The letters of one group accumulated six bits at a time. */
  function Accumulate(ds: seq<Sextet>): nat {
    if ds == [] then 0 else Accumulate(ds[..|ds| - 1]) * 64 + ds[|ds| - 1] as nat
  }

  lemma AccumulateGroup(ds: seq<Sextet>)
    requires 2 <= |ds| <= 4
    ensures var x: nat, y: nat := ds[0], ds[1];
      var z: nat, t: nat := if |ds| > 2 then ds[2] else 0, if |ds| > 3 then ds[3] else 0;
      && (|ds| == 2 ==> Accumulate(ds) == x * 64 + y)
      && (|ds| == 3 ==> Accumulate(ds) == (x * 64 + y) * 64 + z)
      && (|ds| == 4 ==> Accumulate(ds) == ((x * 64 + y) * 64 + z) * 64 + t)
  {
    if |ds| == 2 {
      assert Accumulate(ds[..1]) == ds[0] as nat;
    } else {
      AccumulateGroup(ds[..|ds| - 1]);
    }
  }

  method DecodeChunk(chunk: string) returns (r: Option<seq<Byte>>)
    requires 1 <= |chunk| <= 4
    ensures r.Some? <==> InAlphabet(chunk) && |chunk| > 1
    ensures r.Some? ==> r.value == GroupBytes(Values(chunk))
  {
    if |chunk| == 1 {
      return None;
    }
    var n: nat := 0;
    var j := 0;
    ghost var ds: seq<Sextet> := [];
    while j < |chunk|
      invariant 0 <= j <= |chunk|
      invariant |ds| == j && n == Accumulate(ds)
      invariant forall k :: 0 <= k < j ==> Value(chunk[k]) == Some(ds[k])
    {
      var v := Value(chunk[j]);
      if v.None? {
        return None;
      }
      n := n * 64 + v.value as nat;
      ds := ds + [v.value];
      j := j + 1;
    }
    assert ds == Values(chunk);
    r := Some(Bytewise(n, |chunk|, ds));
  }

  /** `n <<= 6 * (4 - len)` followed by the byte extraction of `to_be_bytes`. */
  function Bytewise(n: nat, len: nat, ghost ds: seq<Sextet>): (g: seq<Byte>)
    requires 2 <= len == |ds| <= 4 && n == Accumulate(ds)
    ensures g == GroupBytes(ds)
  {
    AccumulateGroup(ds);
    var aligned := if len == 2 then n * 4096 else if len == 3 then n * 64 else n;
    Unslice(ds[0], ds[1], if len > 2 then ds[2] else 0, if len > 3 then ds[3] else 0, aligned);
    if len == 2 then [aligned / 65536 % 256]
    else if len == 3 then [aligned / 65536 % 256, aligned / 256 % 256]
    else [aligned / 65536 % 256, aligned / 256 % 256, aligned % 256]
  }

  // Laws of the text form.

  /** Decoding undoes encoding, for every byte string. */
  lemma DecodeEncode(bs: seq<Byte>)
    ensures Decode(Encode(bs)) == Some(bs)
  {
    hide ToSextets, FromSextets, Symbol, Value;
    ValuesSymbols(ToSextets(bs));
    FromToSextets(bs);
  }

  /** Two byte strings never share a text. */
  lemma EncodeInjective(a: seq<Byte>, b: seq<Byte>)
    requires Encode(a) == Encode(b)
    ensures a == b
  {
    DecodeEncode(a);
    DecodeEncode(b);
  }

  /** A decoded text is the encoding of its bytes exactly when no unused bit is set: the decoder is lenient. */
  lemma EncodeDecode(s: string)
    requires Decode(s).Some?
    ensures Encode(Decode(s).value) == s <==> CanonicalTail(Values(s))
  {
    hide ToSextets, FromSextets, Symbol, Value;
    ToFromSextets(Values(s));
    SymbolsValues(s, ToSextets(FromSextets(Values(s))));
  }

  /** The relay's test of a mailbox id in a request path. */
  predicate MailboxIdShapeOk(id: string) {
    |id| == 43 && InAlphabet(id)
  }

  /** Every 256-bit value encodes to an id the relay accepts, and no two share one. */
  lemma MailboxIds(a: seq<Byte>, b: seq<Byte>)
    requires |a| == 32 && |b| == 32
    ensures MailboxIdShapeOk(Encode(a))
    ensures Encode(a) == Encode(b) <==> a == b
  {
    hide ToSextets, FromSextets, Symbol, Value;
    FromToSextets(a);
    ValuesSymbols(ToSextets(a));
    if Encode(a) == Encode(b) {
      EncodeInjective(a, b);
    }
  }
}
