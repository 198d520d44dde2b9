/**
 The cursor every pairing message is read with. A message is a list of fields, fixed-length or with a
 16-bit length in front; reading is shown to be exactly the inverse of writing, for every list of fields.
 */
module Wire {
  import opened Bytes

  datatype Kind = Fixed(n: nat) | Prefixed

  predicate FitsKind(k: Kind, v: seq<Byte>) {
    match k
    case Fixed(n) => |v| == n
    case Prefixed => |v| <= U16_MAX
  }

  function EmitOne(k: Kind, v: seq<Byte>): seq<Byte> {
    match k
    case Fixed(_) => v
    case Prefixed => ToBe(2, |v|) + v
  }

  function Emit(ks: seq<Kind>, vs: seq<seq<Byte>>): seq<Byte> {
    if ks == [] || vs == [] then [] else EmitOne(ks[0], vs[0]) + Emit(ks[1..], vs[1..])
  }

  predicate FitsAll(ks: seq<Kind>, vs: seq<seq<Byte>>) {
    if ks == [] || vs == [] then |ks| == |vs|
    else FitsKind(ks[0], vs[0]) && FitsAll(ks[1..], vs[1..])
  }

  /** One field off the front: its value and what follows. */
  function ReadOne(k: Kind, bs: seq<Byte>): Option<(seq<Byte>, seq<Byte>)> {
    match k
    case Fixed(n) => if n <= |bs| then Some((bs[..n], bs[n..])) else None
    case Prefixed =>
      if |bs| < 2 then None
      else
        var n := FromBe(bs[..2]);
        if 2 + n <= |bs| then Some((bs[2..2 + n], bs[2 + n..])) else None
  }

  function ReadAll(ks: seq<Kind>, bs: seq<Byte>): Option<(seq<seq<Byte>>, seq<Byte>)> {
    if ks == [] then Some(([], bs))
    else
      match ReadOne(ks[0], bs)
      case None => None
      case Some((v, rest)) => After([v], ReadAll(ks[1..], rest))
  }

  function After(vs: seq<seq<Byte>>, r: Option<(seq<seq<Byte>>, seq<Byte>)>): Option<(seq<seq<Byte>>, seq<Byte>)> {
    match r
    case None => None
    case Some((ws, rest)) => Some((vs + ws, rest))
  }

  lemma ReadOneExact(k: Kind, bs: seq<Byte>, v: seq<Byte>, rest: seq<Byte>)
    ensures ReadOne(k, bs) == Some((v, rest)) <==> FitsKind(k, v) && bs == EmitOne(k, v) + rest
  {
    PowWidths();
    if k.Prefixed? {
      if |bs| >= 2 {
        ToBeFromBe(bs[..2]);
        var n := FromBe(bs[..2]);
        assert 2 + n <= |bs| ==> bs == bs[..2] + bs[2..2 + n] + bs[2 + n..];
      }
      if |v| <= U16_MAX && bs == ToBe(2, |v|) + v + rest {
        FromBeToBe(2, |v|);
        assert bs[..2] == ToBe(2, |v|);
        assert bs[2..2 + |v|] == v && bs[2 + |v|..] == rest;
      }
    } else {
      if k.n <= |bs| {
        assert bs == bs[..k.n] + bs[k.n..];
      }
      if |v| == k.n && bs == v + rest {
        assert bs[..k.n] == v && bs[k.n..] == rest;
      }
    }
  }

  lemma {:induction false} ReadSound(ks: seq<Kind>, bs: seq<Byte>)
    ensures match ReadAll(ks, bs)
      case None => true
      case Some((vs, rest)) => FitsAll(ks, vs) && bs == Emit(ks, vs) + rest
    decreases |ks|
  {
    if ks != [] && ReadAll(ks, bs).Some? {
      var (v, tail) := ReadOne(ks[0], bs).value;
      ReadOneExact(ks[0], bs, v, tail);
      ReadSound(ks[1..], tail);
      var (ws, rest) := ReadAll(ks[1..], tail).value;
      assert ([v] + ws)[1..] == ws;
      assert EmitOne(ks[0], v) + (Emit(ks[1..], ws) + rest) == EmitOne(ks[0], v) + Emit(ks[1..], ws) + rest;
      hide ReadOne, EmitOne, FitsKind;
    }
  }

  lemma {:induction false} ReadBack(ks: seq<Kind>, vs: seq<seq<Byte>>, rest: seq<Byte>)
    requires FitsAll(ks, vs)
    ensures ReadAll(ks, Emit(ks, vs) + rest) == Some((vs, rest))
    decreases |ks|
  {
    if ks != [] {
      var body := Emit(ks[1..], vs[1..]) + rest;
      var bs := Emit(ks, vs) + rest;
      assert bs == EmitOne(ks[0], vs[0]) + body;
      ReadOneExact(ks[0], bs, vs[0], body);
      ReadBack(ks[1..], vs[1..], rest);
      assert [vs[0]] + vs[1..] == vs;
      hide ReadOne, EmitOne, FitsKind;
    } else {
      assert Emit(ks, vs) + rest == rest;
    }
  }

  /** Reading is exactly the inverse of writing: the only values found are those whose encoding stands there. */
  lemma ReadExact(ks: seq<Kind>, bs: seq<Byte>, vs: seq<seq<Byte>>, rest: seq<Byte>)
    ensures ReadAll(ks, bs) == Some((vs, rest)) <==> FitsAll(ks, vs) && bs == Emit(ks, vs) + rest
  {
    ReadSound(ks, bs);
    if FitsAll(ks, vs) {
      ReadBack(ks, vs, rest);
    }
  }

  /** Having read `got` for the fields `script` up to `pos`: what any longer list of fields will give. */
  ghost predicate Reached(bs: seq<Byte>, script: seq<Kind>, got: seq<seq<Byte>>, pos: nat) {
    pos <= |bs| && forall more :: ReadAll(script + more, bs) == After(got, ReadAll(more, bs[pos..]))
  }

  ghost predicate Fails(bs: seq<Byte>, script: seq<Kind>) { forall more :: ReadAll(script + more, bs) == None }

  lemma ReachedStart(bs: seq<Byte>)
    ensures Reached(bs, [], [], 0)
  {
    assert bs[0..] == bs;
    forall more
      ensures ReadAll([] + more, bs) == After([], ReadAll(more, bs[0..]))
    {
      assert [] + more == more;
      match ReadAll(more, bs)
      case None =>
      case Some((ws, _)) => assert [] + ws == ws;
    }
  }

  lemma ReachedNext(bs: seq<Byte>, script: seq<Kind>, got: seq<seq<Byte>>, pos: nat, k: Kind)
    requires Reached(bs, script, got, pos)
    ensures match ReadOne(k, bs[pos..])
      case None => Fails(bs, script + [k])
      case Some((v, rest)) => |rest| <= |bs| && Reached(bs, script + [k], got + [v], |bs| - |rest|)
  {
    forall more
      ensures ReadAll((script + [k]) + more, bs) == After(got, ReadAll([k] + more, bs[pos..]))
    {
      assert (script + [k]) + more == script + ([k] + more);
    }
    match ReadOne(k, bs[pos..])
    case None =>
      forall more
        ensures ReadAll((script + [k]) + more, bs) == None
      {
        assert ([k] + more)[0] == k;
      }
    case Some((v, rest)) =>
      ReadOneExact(k, bs[pos..], v, rest);
      assert bs[|bs| - |rest|..] == rest;
      forall more
        ensures ReadAll((script + [k]) + more, bs) == After(got + [v], ReadAll(more, rest))
      {
        assert ([k] + more)[0] == k && ([k] + more)[1..] == more;
        match ReadAll(more, rest)
        case None =>
        case Some((ws, _)) => assert got + ([v] + ws) == got + [v] + ws;
      }
  }

  /** All of the input, as the given fields. */
  function ReadWhole(ks: seq<Kind>, bs: seq<Byte>): Option<seq<seq<Byte>>> {
    match ReadAll(ks, bs)
    case None => None
    case Some((vs, rest)) => if rest == [] then Some(vs) else None
  }

  lemma ReadWholeExact(ks: seq<Kind>, bs: seq<Byte>, vs: seq<seq<Byte>>)
    ensures ReadWhole(ks, bs) == Some(vs) <==> FitsAll(ks, vs) && bs == Emit(ks, vs)
  {
    ReadExact(ks, bs, vs, []);
    assert Emit(ks, vs) + [] == Emit(ks, vs);
  }

  lemma {:induction false} FitsEach(ks: seq<Kind>, vs: seq<seq<Byte>>)
    ensures FitsAll(ks, vs) <==> |ks| == |vs| && forall i :: 0 <= i < |ks| ==> FitsKind(ks[i], vs[i])
  {
    if ks != [] && vs != [] {
      FitsEach(ks[1..], vs[1..]);
      if |ks| == |vs| && FitsAll(ks[1..], vs[1..]) {
        assert forall i :: 0 < i < |ks| ==> ks[i] == ks[1..][i - 1] && vs[i] == vs[1..][i - 1];
      }
    }
  }

  /** Writing field after field. */
  lemma {:induction false} EmitPush(ks: seq<Kind>, vs: seq<seq<Byte>>, k: Kind, v: seq<Byte>)
    requires |ks| == |vs|
    ensures Emit(ks + [k], vs + [v]) == Emit(ks, vs) + EmitOne(k, v)
  {
    if ks == [] {
      assert ([k])[1..] == [] && [] + [k] == [k] && [] + [v] == [v];
    } else {
      assert (ks + [k])[1..] == ks[1..] + [k] && (vs + [v])[1..] == vs[1..] + [v];
      EmitPush(ks[1..], vs[1..], k, v);
    }
  }

  lemma ReachedEnd(bs: seq<Byte>, ks: seq<Kind>, got: seq<seq<Byte>>, pos: nat)
    requires Reached(bs, ks, got, pos)
    ensures ReadWhole(ks, bs) == if pos == |bs| then Some(got) else None
  {
    assert ks + [] == ks && got + [] == got;
    assert ReadAll(ks + [], bs) == After(got, ReadAll([], bs[pos..]));
  }

  lemma FailsWhole(bs: seq<Byte>, part: seq<Kind>, ks: seq<Kind>)
    requires Fails(bs, part) && |part| <= |ks| && part == ks[..|part|]
    ensures ReadWhole(ks, bs) == None
  {
    assert ks == part + ks[|part|..];
  }

  lemma ReachedPrefix(bs: seq<Byte>, part: seq<Kind>, got: seq<seq<Byte>>, pos: nat, ks: seq<Kind>)
    requires Reached(bs, part, got, pos) && |part| <= |ks| && part == ks[..|part|]
    ensures ReadWhole(ks, bs).Some? ==> got <= ReadWhole(ks, bs).value
  {
    assert ks == part + ks[|part|..];
    assert ReadAll(part + ks[|part|..], bs) == After(got, ReadAll(ks[|part|..], bs[pos..]));
  }

  lemma PrefixedAt(bs: seq<Byte>, pos: nat)
    requires pos <= |bs|
    ensures ReadOne(Prefixed, bs[pos..]) ==
      if pos + 2 > |bs| then None
      else
        var end := pos + 2 + FromBe(bs[pos..pos + 2]);
        if end > |bs| then None else Some((bs[pos + 2..end], bs[end..]))
  {
    if pos + 2 <= |bs| {
      assert bs[pos..][..2] == bs[pos..pos + 2];
      hide FromBe;
      var n := FromBe(bs[pos..pos + 2]);
      if pos + 2 + n <= |bs| {
        assert bs[pos..][2..2 + n] == bs[pos + 2..pos + 2 + n] && bs[pos..][2 + n..] == bs[pos + 2 + n..];
      }
    }
  }

  /** A position in the input; the ghost fields record which message is being read and the fields so far. */
  class Cursor {
    const bytes: seq<Byte>
    ghost const goal: seq<Kind>
    var pos: nat
    ghost var got: seq<seq<Byte>>

    ghost predicate Valid()
      reads this
    {
      |got| <= |goal| && Reached(bytes, goal[..|got|], got, pos)
    }

    /** The fields so far begin whatever the whole gives, and at the end they are it. */
    ghost predicate OnTrack()
      reads this
    {
      && (ReadWhole(goal, bytes).Some? ==> got <= ReadWhole(goal, bytes).value)
      && (|got| == |goal| ==> ReadWhole(goal, bytes) == if pos == |bytes| then Some(got) else None)
    }

    constructor (bs: seq<Byte>, ghost ks: seq<Kind>)
      ensures Valid() && bytes == bs && goal == ks && pos == 0 && got == []
    {
      bytes, goal, pos, got := bs, ks, 0, [];
      new;
      assert ks[..0] == [];
      ReachedStart(bs);
    }

    lemma Advanced(v: seq<Byte>, end: nat)
      requires |got| < |goal| && Reached(bytes, goal[..|got|] + [goal[|got|]], got + [v], end)
      ensures Reached(bytes, goal[..|got| + 1], got + [v], end)
      ensures ReadWhole(goal, bytes).Some? ==> got + [v] <= ReadWhole(goal, bytes).value
      ensures |got| + 1 == |goal| ==> ReadWhole(goal, bytes) == if end == |bytes| then Some(got + [v]) else None
    {
      assert goal[..|got|] + [goal[|got|]] == goal[..|got| + 1];
      ReachedPrefix(bytes, goal[..|got| + 1], got + [v], end, goal);
      if |got| + 1 == |goal| {
        assert goal[..|got| + 1] == goal;
        ReachedEnd(bytes, goal, got + [v], end);
      }
    }

    /** The next `n` bytes, or nothing and no move. */
    method Take(n: nat) returns (r: Option<seq<Byte>>)
      requires Valid() && |got| < |goal| && goal[|got|] == Fixed(n)
      modifies this
      ensures r.Some? <==> old(pos) + n <= |bytes|
      ensures r.Some? ==> Valid() && OnTrack() && got == old(got) + [r.value]
      ensures r.Some? ==> pos == old(pos) + n && r.value == bytes[old(pos)..pos]
      ensures r.None? ==> pos == old(pos) && ReadWhole(goal, bytes) == None
    {
      ghost var i := |got|;
      assert goal[..i] + [goal[i]] == goal[..i + 1];
      ReachedNext(bytes, goal[..i], got, pos, Fixed(n));
      hide Reached, Fails, ReadWhole;
      var end := pos + n;
      if end > |bytes| {
        FailsWhole(bytes, goal[..i + 1], goal);
        return None;
      }
      var slice := bytes[pos..end];
      assert bytes[pos..][..n] == slice && |bytes[pos..][n..]| == |bytes| - end;
      Advanced(slice, end);
      got := got + [slice];
      pos := end;
      return Some(slice);
    }

    /** A length-prefixed field. */
    method BytesField() returns (r: Option<seq<Byte>>)
      requires Valid() && |got| < |goal| && goal[|got|] == Prefixed
      modifies this
      ensures r.Some? ==> Valid() && OnTrack() && got == old(got) + [r.value]
      ensures r.None? ==> ReadWhole(goal, bytes) == None
    {
      ghost var i := |got|;
      assert goal[..i] + [goal[i]] == goal[..i + 1];
      ReachedNext(bytes, goal[..i], got, pos, Prefixed);
      PrefixedAt(bytes, pos);
      hide Reached, Fails, ReadWhole, ReadOne, FromBe;
      if pos + 2 > |bytes| {
        FailsWhole(bytes, goal[..i + 1], goal);
        return None;
      }
      var len := FromBe(bytes[pos..pos + 2]);
      var from := pos + 2;
      if from + len > |bytes| {
        FailsWhole(bytes, goal[..i + 1], goal);
        pos := from;
        return None;
      }
      var slice := bytes[from..from + len];
      Advanced(slice, from + len);
      got := got + [slice];
      pos := from + len;
      return Some(slice);
    }
  }

  /** The output buffer; the ghost fields record what has been pushed. */
  class Writer {
    var out: seq<Byte>
    ghost var kinds: seq<Kind>
    ghost var fields: seq<seq<Byte>>

    ghost predicate Valid()
      reads this
    {
      |kinds| == |fields| && out == Emit(kinds, fields)
    }

    constructor ()
      ensures Valid() && out == [] && kinds == [] && fields == []
    {
      out, kinds, fields := [], [], [];
    }

    method Raw(bytes: seq<Byte>, ghost n: nat)
      requires Valid()
      modifies this
      ensures Valid() && kinds == old(kinds) + [Fixed(n)] && fields == old(fields) + [bytes]
    {
      EmitPush(kinds, fields, Fixed(n), bytes);
      out := out + bytes;
      kinds, fields := kinds + [Fixed(n)], fields + [bytes];
    }

    /** A 16-bit length, then the bytes; longer ones have no such length. */
    method PutBytes(bytes: seq<Byte>)
      requires Valid() && |bytes| <= U16_MAX
      modifies this
      ensures Valid() && kinds == old(kinds) + [Prefixed] && fields == old(fields) + [bytes]
    {
      EmitPush(kinds, fields, Prefixed, bytes);
      out := out + ToBe(2, |bytes|);
      out := out + bytes;
      kinds, fields := kinds + [Prefixed], fields + [bytes];
    }
  }
}
