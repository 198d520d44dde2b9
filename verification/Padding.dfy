/** Padding profiles and the padded inner frame. */
module Padding {
  import opened Bytes

  const HEADER_LEN: nat := 6

  datatype PayloadType = Chat | Posture | Policy | Alert | PairAck | MailboxUpdate | RecoveryHello

  datatype Error =
    | InvalidProfile
    | PayloadExceedsU32
    | PayloadTooLarge(len: nat, max: nat)
    | NoBucketFits
    | FrameExceedsU32
    | InvalidBucket(frameLen: nat)
    | UnknownPayloadType(byte: nat)
    | LengthExceedsFrame
    | InvalidPadding

  datatype Result<T> = Ok(value: T) | Err(error: Error)

  function TypeByte(t: PayloadType): Byte {
    match t
    case Chat => 1 case Posture => 2 case Policy => 3 case Alert => 4
    case PairAck => 5 case MailboxUpdate => 6 case RecoveryHello => 7
  }

  function TypeOf(b: Byte): Result<PayloadType> {
    match b
    case 1 => Ok(Chat) case 2 => Ok(Posture) case 3 => Ok(Policy) case 4 => Ok(Alert)
    case 5 => Ok(PairAck) case 6 => Ok(MailboxUpdate) case 7 => Ok(RecoveryHello)
    case _ => Err(UnknownPayloadType(b))
  }

  // Profiles.

  predicate Increasing(p: seq<nat>) { forall i, j :: 0 <= i < j < |p| ==> p[i] < p[j] }

  predicate Sorted(p: seq<nat>) { forall i, j :: 0 <= i < j < |p| ==> p[i] <= p[j] }

  /** A profile: distinct ascending 32-bit bucket sizes, none below the header. */
  predicate ProfileOk(p: seq<nat>) {
    Increasing(p) && p != [] && p[0] >= HEADER_LEN && p[|p| - 1] <= U32_MAX
  }

  method InsertSorted(s: seq<nat>, b: nat) returns (r: seq<nat>)
    requires Sorted(s)
    ensures Sorted(r) && forall x :: x in r <==> x in s || x == b
  {
    var k := |s|;
    while k > 0 && s[k - 1] > b
      invariant 0 <= k <= |s| && forall j :: k <= j < |s| ==> s[j] > b
      decreases k
    {
      k := k - 1;
    }
    r := s[..k] + [b] + s[k..];
    assert Sorted(r) by { InsertedSorted(s, k, b); }
    InsertedMembers(s, k, b);
  }

  lemma InsertedSorted(s: seq<nat>, k: nat, b: nat)
    requires Sorted(s) && k <= |s| && (k > 0 ==> s[k - 1] <= b) && forall j :: k <= j < |s| ==> s[j] > b
    ensures Sorted(s[..k] + [b] + s[k..])
  {
    var r := s[..k] + [b] + s[k..];
    assert forall i :: 0 <= i < k ==> r[i] == s[i] <= b;
    assert forall i :: k < i < |r| ==> r[i] == s[i - 1] > b;
  }

  lemma InsertedMembers(s: seq<nat>, k: nat, b: nat)
    requires k <= |s|
    ensures forall x :: x in s[..k] + [b] + s[k..] <==> x in s || x == b
  {
    assert s == s[..k] + s[k..];
    assert forall x :: x in s <==> x in s[..k] || x in s[k..];
  }

  method SortBuckets(buckets: seq<nat>) returns (s: seq<nat>)
    ensures Sorted(s) && forall x :: x in s <==> x in buckets
  {
    s := [];
    var i := 0;
    while i < |buckets|
      invariant 0 <= i <= |buckets| && Sorted(s) && forall x :: x in s <==> x in buckets[..i]
    {
      assert buckets[..i + 1] == buckets[..i] + [buckets[i]];
      s := InsertSorted(s, buckets[i]);
      i := i + 1;
    }
    assert buckets[..i] == buckets;
  }

  method Dedup(s: seq<nat>) returns (p: seq<nat>)
    requires Sorted(s)
    ensures Increasing(p) && forall x :: x in p <==> x in s
  {
    p := [];
    var i := 0;
    while i < |s|
      invariant 0 <= i <= |s| && Increasing(p) && (forall x :: x in p <==> x in s[..i])
      invariant (i == 0 <==> p == []) && (i > 0 ==> p[|p| - 1] == s[i - 1])
    {
      assert s[..i + 1] == s[..i] + [s[i]];
      if p == [] || p[|p| - 1] != s[i] {
        p := p + [s[i]];
      }
      i := i + 1;
    }
    assert s[..i] == s;
  }

  /** Builds a profile exactly when there is a bucket and none is below the header; which one is then determined. */
  method NewProfile(buckets: seq<nat>) returns (r: Result<seq<nat>>)
    requires forall x :: x in buckets ==> x <= U32_MAX
    ensures r.Ok? <==> buckets != [] && forall x :: x in buckets ==> x >= HEADER_LEN
    ensures r.Ok? ==> ProfileOk(r.value) && forall x :: x in r.value <==> x in buckets
    ensures r.Err? ==> r.error == InvalidProfile
  {
    var s := SortBuckets(buckets);
    var p := Dedup(s);
    if p == [] || p[0] < HEADER_LEN {
      assert buckets != [] ==> buckets[0] in p;
      assert p != [] ==> p[0] in buckets;
      return Err(InvalidProfile);
    }
    assert p[0] in buckets && p[|p| - 1] in p;
    forall x | x in buckets
      ensures x >= HEADER_LEN
    {
      assert x in p;
    }
    return Ok(p);
  }

  /** Only one ascending sequence has a given set of elements. */
  lemma {:induction false} ProfileDetermined(p: seq<nat>, q: seq<nat>)
    requires Increasing(p) && Increasing(q) && forall x :: x in p <==> x in q
    ensures p == q
  {
    assert forall i :: 0 <= i < |p| ==> p[i] in p;
    assert forall i :: 0 <= i < |q| ==> q[i] in q;
    if p != [] && q != [] {
      FirstIsLeast(p);
      FirstIsLeast(q);
      assert p[0] in q && q[0] in p;
      assert p[0] == q[0];
      TailMembers(p);
      TailMembers(q);
      ProfileDetermined(p[1..], q[1..]);
      assert p == [p[0]] + p[1..] && q == [q[0]] + q[1..];
    }
  }

  lemma FirstIsLeast(p: seq<nat>)
    requires Increasing(p) && p != []
    ensures forall x :: x in p ==> p[0] <= x
  {}

  lemma TailMembers(p: seq<nat>)
    requires Increasing(p) && p != []
    ensures forall x :: x in p[1..] <==> x in p && x != p[0]
  {
    assert p == [p[0]] + p[1..];
    assert forall i :: 0 < i < |p| ==> p[i] != p[0];
  }

  function MaxPayload(p: seq<nat>): nat
    requires ProfileOk(p)
  {
    assert forall i :: 0 < i < |p| ==> p[0] < p[i];
    p[|p| - 1] - HEADER_LEN
  }

  /** The first bucket that holds the frame. */
  method BucketFor(p: seq<nat>, frameLen: nat) returns (b: Option<nat>)
    requires Increasing(p)
    ensures b.Some? ==> Fits(p, frameLen, b.value)
    ensures b.None? ==> forall x :: x in p ==> x < frameLen
  {
    var i := 0;
    while i < |p|
      invariant 0 <= i <= |p| && forall j :: 0 <= j < i ==> p[j] < frameLen
    {
      if p[i] >= frameLen {
        return Some(p[i]);
      }
      i := i + 1;
    }
    return None;
  }

  /** The least bucket of at least `frameLen`. */
  predicate Fits(p: seq<nat>, frameLen: nat, b: nat) {
    b in p && b >= frameLen && forall x :: x in p && x >= frameLen ==> b <= x
  }

  method IsBucket(p: seq<nat>, len: nat) returns (found: bool)
    requires Increasing(p)
    ensures found <==> len in p
  {
    var lo, hi := 0, |p|;
    while lo < hi
      invariant 0 <= lo <= hi <= |p|
      invariant forall i :: 0 <= i < |p| && !(lo <= i < hi) ==> p[i] != len
    {
      var mid := lo + (hi - lo) / 2;
      if p[mid] == len {
        return true;
      } else if p[mid] < len {
        lo := mid + 1;
      } else {
        hi := mid;
      }
    }
    return false;
  }

  // Frames.

  datatype InnerFrame = InnerFrame(payloadType: PayloadType, typeVersion: Byte, payload: seq<Byte>)

  /** Header and payload, before padding. */
  function Raw(f: InnerFrame): (r: seq<Byte>)
    requires |f.payload| <= U32_MAX
    ensures |r| == HEADER_LEN + |f.payload|
  {
    PowWidths();
    [TypeByte(f.payloadType), f.typeVersion] + ToBe(4, |f.payload|) + f.payload
  }

  function Zeros(n: nat): (r: seq<Byte>)
    ensures |r| == n && forall i :: 0 <= i < n ==> r[i] == 0
  {
    seq(n, i => 0)
  }

  /** The frame of `f` padded to length `b`. */
  function Padded(f: InnerFrame, b: nat): (r: seq<Byte>)
    requires |f.payload| <= U32_MAX && b >= HEADER_LEN + |f.payload|
    ensures |r| == b
  {
    Raw(f) + Zeros(b - HEADER_LEN - |f.payload|)
  }

  /** `b` is the least bucket that holds `f`. */
  predicate FitsFrame(p: seq<nat>, f: InnerFrame, b: nat) { Fits(p, HEADER_LEN + |f.payload|, b) }

  method Encode(f: InnerFrame, p: seq<nat>) returns (r: Result<seq<Byte>>)
    requires ProfileOk(p)
    ensures r.Ok? <==> |f.payload| <= MaxPayload(p)
    ensures r.Ok? ==> |f.payload| <= U32_MAX && FitsFrame(p, f, |r.value|) && r.value == Padded(f, |r.value|)
    ensures r.Err? ==>
      r.error == if |f.payload| > U32_MAX then PayloadExceedsU32 else PayloadTooLarge(|f.payload|, MaxPayload(p))
  {
    if |f.payload| > U32_MAX {
      return Err(PayloadExceedsU32);
    }
    var len, max := |f.payload|, MaxPayload(p);
    if len > max {
      return Err(PayloadTooLarge(len, max));
    }
    var bucket := BucketFor(p, HEADER_LEN + len);
    // The largest bucket always fits.
    assert p[|p| - 1] in p;
    PowWidths();
    var out := [TypeByte(f.payloadType)];
    out := out + [f.typeVersion];
    out := out + ToBe(4, len);
    out := out + f.payload;
    out := out + Zeros(bucket.value - |out|);
    return Ok(out);
  }

  function Parse(bytes: seq<Byte>, p: seq<nat>): Result<InnerFrame>
    requires ProfileOk(p)
  {
    if |bytes| > U32_MAX then Err(FrameExceedsU32)
    else if |bytes| !in p then Err(InvalidBucket(|bytes|))
    else
      BucketsHoldHeader(p, |bytes|);
      match TypeOf(bytes[0])
      case Err(e) => Err(e)
      case Ok(t) =>
        var end := HEADER_LEN + FromBe(bytes[2..6]);
        if end > |bytes| then Err(LengthExceedsFrame)
        else if exists i :: end <= i < |bytes| && bytes[i] != 0 then Err(InvalidPadding)
        else Ok(InnerFrame(t, bytes[1], bytes[HEADER_LEN..end]))
  }

  lemma BucketsHoldHeader(p: seq<nat>, b: nat)
    requires ProfileOk(p) && b in p
    ensures HEADER_LEN <= b <= U32_MAX && b - HEADER_LEN <= MaxPayload(p)
  {}

  /** A frame parses to `f` exactly when it is `f` padded to one of the buckets. */
  lemma ParsesExactly(bytes: seq<Byte>, p: seq<nat>, f: InnerFrame)
    requires ProfileOk(p)
    ensures Parse(bytes, p) == Ok(f) <==>
      |bytes| in p && HEADER_LEN + |f.payload| <= |bytes| && |f.payload| <= U32_MAX && bytes == Padded(f, |bytes|)
  {
    if |bytes| in p {
      BucketsHoldHeader(p, |bytes|);
      if Parse(bytes, p) == Ok(f) {
        ParsedIsPadded(bytes, p, f);
      }
      if HEADER_LEN + |f.payload| <= |bytes| && bytes == Padded(f, |bytes|) {
        PaddedParses(bytes, p, f);
      }
    }
  }

  lemma ParsedIsPadded(bytes: seq<Byte>, p: seq<nat>, f: InnerFrame)
    requires ProfileOk(p) && Parse(bytes, p) == Ok(f)
    ensures |bytes| in p && HEADER_LEN + |f.payload| <= |bytes| <= U32_MAX && bytes == Padded(f, |bytes|)
  {
    BucketsHoldHeader(p, |bytes|);
    var len, end := bytes[2..6], HEADER_LEN + FromBe(bytes[2..6]);
    PowWidths();
    ToBeFromBe(len);
    assert bytes == [bytes[0], bytes[1]] + len + bytes[HEADER_LEN..end] + bytes[end..];
    assert bytes[end..] == Zeros(|bytes| - end);
  }

  lemma PaddedParses(bytes: seq<Byte>, p: seq<nat>, f: InnerFrame)
    requires ProfileOk(p) && |bytes| in p && HEADER_LEN + |f.payload| <= |bytes| <= U32_MAX
      && bytes == Padded(f, |bytes|)
    ensures Parse(bytes, p) == Ok(f)
  {
    PowWidths();
    var len := ToBe(4, |f.payload|);
    FromBeToBe(4, |f.payload|);
    assert bytes[2..6] == len;
    assert bytes[HEADER_LEN..HEADER_LEN + |f.payload|] == f.payload;
    assert forall i :: HEADER_LEN + |f.payload| <= i < |bytes| ==> bytes[i] == 0;
  }

  /** Some bucket fits exactly when the payload is within the maximum, so encoding never lacks one. */
  lemma LeastBucket(p: seq<nat>, frameLen: nat)
    requires Increasing(p) && p != []
    ensures (exists b :: Fits(p, frameLen, b)) <==> frameLen <= p[|p| - 1]
  {
    var last := p[|p| - 1];
    assert forall x :: x in p ==> x <= last;
    if frameLen <= last {
      var i := 0;
      while p[i] < frameLen
        invariant 0 <= i < |p| && forall j :: 0 <= j < i ==> p[j] < frameLen
        decreases |p| - i
      {
        i := i + 1;
      }
      assert Fits(p, frameLen, p[i]);
    }
  }

  /** Encoding then parsing gives the frame back, at the least bucket that holds it. */
  lemma RoundTrip(f: InnerFrame, p: seq<nat>, b: nat)
    requires ProfileOk(p) && |f.payload| <= U32_MAX && FitsFrame(p, f, b)
    ensures Parse(Padded(f, b), p) == Ok(f)
  {
    BucketsHoldHeader(p, b);
    PaddedParses(Padded(f, b), p, f);
  }

  /**
   Any parsed frame encodes again, never longer, to bytes that parse to itself; the very same bytes
   exactly when the sender had chosen the least bucket.
   */
  lemma Reencode(bytes: seq<Byte>, p: seq<nat>, f: InnerFrame)
    requires ProfileOk(p) && Parse(bytes, p) == Ok(f)
    ensures |f.payload| <= MaxPayload(p) <= U32_MAX
    ensures exists b :: FitsFrame(p, f, b)
    ensures forall b: nat :: FitsFrame(p, f, b) ==>
      && b <= |bytes| && Parse(Padded(f, b), p) == Ok(f)
      && (Padded(f, b) == bytes <==> FitsFrame(p, f, |bytes|))
  {
    ParsedIsPadded(bytes, p, f);
    BucketsHoldHeader(p, |bytes|);
    LeastBucket(p, HEADER_LEN + |f.payload|);
    var least: nat :| Fits(p, HEADER_LEN + |f.payload|, least);
    assert FitsFrame(p, f, least);
    forall b: nat | FitsFrame(p, f, b)
      ensures b <= |bytes| && Parse(Padded(f, b), p) == Ok(f)
      ensures Padded(f, b) == bytes <==> FitsFrame(p, f, |bytes|)
    {
      RoundTrip(f, p, b);
    }
  }
}
