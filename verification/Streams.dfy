/** The writer and reader objects of the codec, proved against the printers and readers on values. */
module Streams {
  import opened Types
  import opened Binary

  /**
   A buffer that grows at its end. Each method promises, for whatever is written after it, that
   the value now stands in front of that.
   */
  class ByteWriter {
    var buf: seq<byte>

    constructor ()
      ensures buf == []
    {
      buf := [];
    }

    /** Bytes of v, least significant first, pushed one at a time. */
    method Little(v: nat, n: nat)
      modifies this
      ensures forall k: seq<byte> {:trigger buf + k} :: buf + k == old(buf) + (LE(v, n) + k)
    {
      var rest := v;
      for i := 0 to n
        invariant buf + LE(rest, n - i) == old(buf) + LE(v, n)
      {
        assert buf + LE(rest, n - i) == buf + [rest % 256] + LE(rest / 256, n - i - 1);
        buf := buf + [rest % 256];
        rest := rest / 256;
      }
      assert buf == old(buf) + LE(v, n);
    }

    method U8(v: byte)
      modifies this
      ensures forall k: seq<byte> {:trigger buf + k} :: buf + k == old(buf) + PutByte(v, k)
    {
      buf := buf + [v];
    }

    method Flag(v: bool)
      modifies this
      ensures forall k: seq<byte> {:trigger buf + k} :: buf + k == old(buf) + PutFlag(v, k)
    {
      U8(if v then 1 else 0);
    }

    /** A 32-bit number: the conversion drops the high bits. */
    method Word(v: nat)
      modifies this
      ensures v % U32 < Pow256(4)
      ensures forall k: seq<byte> {:trigger buf + k} :: buf + k == old(buf) + PutNum(4, v % U32, k)
    {
      Pow256Small();
      Little(v % U32, 4);
    }

    method Quad(v: U64)
      modifies this
      ensures forall k: seq<byte> {:trigger buf + k} :: buf + k == old(buf) + PutU64(v, k)
    {
      Little(v, 8);
    }

    method Bytes(s: seq<byte>)
      modifies this
      ensures forall k: seq<byte> {:trigger buf + k} :: buf + k == old(buf) + PutBytes(s, k)
    {
      buf := buf + s;
    }

    method Uuid(v: Uuid)
      modifies this
      ensures forall k: seq<byte> {:trigger buf + k} :: buf + k == old(buf) + PutUuid(v, k)
    {
      Bytes(BE(v, 16));
    }

    method Digest(v: Digest)
      modifies this
      ensures forall k: seq<byte> {:trigger buf + k} :: buf + k == old(buf) + PutDigest(v, k)
    {
      Bytes(BE(v, 32));
    }

    method Text(s: Text)
      modifies this
      ensures forall k: seq<byte> {:trigger buf + k} :: buf + k == old(buf) + PutText(s, k)
    {
      Word(|s|);
      Bytes(s);
    }

    method OptUuid(v: Option<Uuid>)
      modifies this
      ensures forall k: seq<byte> {:trigger buf + k} :: buf + k == old(buf) + PutOptUuid(v, k)
    {
      Flag(v.Some?);
      if v.Some? {
        Uuid(v.value);
      }
    }

    method OptQuad(v: Option<U64>)
      modifies this
      ensures forall k: seq<byte> {:trigger buf + k} :: buf + k == old(buf) + PutOptU64(v, k)
    {
      Flag(v.Some?);
      if v.Some? {
        Quad(v.value);
      }
    }

    method OptDigest(v: Option<Digest>)
      modifies this
      ensures forall k: seq<byte> {:trigger buf + k} :: buf + k == old(buf) + PutOptDigest(v, k)
    {
      Flag(v.Some?);
      if v.Some? {
        Digest(v.value);
      }
    }

    method OptText(v: Option<Text>)
      modifies this
      ensures forall k: seq<byte> {:trigger buf + k} :: buf + k == old(buf) + PutOptText(v, k)
    {
      Flag(v.Some?);
      if v.Some? {
        Text(v.value);
      }
    }
  }

  /** Part of the way through a list: what is written and what is left make up the whole. */
  ghost predicate Midway<T>(put: (T, seq<byte>) -> seq<byte>, xs: seq<T>, i: nat, start: seq<byte>, buf: seq<byte>)
    requires i <= |xs|
  {
    forall k: seq<byte> {:trigger PutMany(put, xs, k)} ::
      buf + PutMany(put, xs[i..], k) == start + PutMany(put, xs, k)
  }

  ghost predicate Appends<T>(put: (T, seq<byte>) -> seq<byte>, x: T, buf: seq<byte>, after: seq<byte>) {
    forall k: seq<byte> {:trigger put(x, k)} :: after + k == buf + put(x, k)
  }

  lemma OneWritten<T>(put: (T, seq<byte>) -> seq<byte>, xs: seq<T>, i: nat, start: seq<byte>, buf: seq<byte>, after: seq<byte>)
    requires i < |xs| && Midway(put, xs, i, start, buf) && Appends(put, xs[i], buf, after)
    ensures Midway(put, xs, i + 1, start, after)
  {
    assert xs[i..][1..] == xs[i + 1..];
  }

  lemma NoneLeft<T>(put: (T, seq<byte>) -> seq<byte>, xs: seq<T>, start: seq<byte>, buf: seq<byte>, k: seq<byte>)
    requires Midway(put, xs, |xs|, start, buf)
    ensures buf + k == start + PutMany(put, xs, k)
  {
    assert PutMany(put, xs[|xs|..], k) == k;
  }

  /** The same for reading: n elements still to come after those already taken. */
  function Onward<T>(get: seq<byte> -> Parse<T>, xs: seq<T>, n: nat, b: seq<byte>): Parse<seq<T>> {
    var p := GetMany(get, n, b);
    if p.Ok? then Ok(xs + p.value, p.rest) else Fail
  }

  lemma OnwardEnds<T>(get: seq<byte> -> Parse<T>, n: nat, b: seq<byte>)
    ensures Onward(get, [], n, b) == GetMany(get, n, b)
  {
    var p := GetMany(get, n, b);
    assert p.Ok? ==> [] + p.value == p.value;
  }

  lemma OnwardDone<T>(get: seq<byte> -> Parse<T>, xs: seq<T>, b: seq<byte>)
    ensures Onward(get, xs, 0, b) == Ok(xs, b)
  {
    assert xs + [] == xs;
  }

  lemma OnwardKeeps<T>(get: seq<byte> -> Parse<T>, xs: seq<T>, n: nat, b: seq<byte>)
    requires Onward(get, xs, n, b).Ok?
    ensures |Onward(get, xs, n, b).value| >= |xs|
    ensures forall i :: 0 <= i < |xs| ==> Onward(get, xs, n, b).value[i] == xs[i]
  {}

  lemma OneRead<T>(get: seq<byte> -> Parse<T>, xs: seq<T>, n: nat, b: seq<byte>)
    requires n > 0
    ensures Onward(get, xs, n, b) == if get(b).Ok? then Onward(get, xs + [get(b).value], n - 1, get(b).rest) else Fail
  {
    if get(b).Ok? && GetMany(get, n - 1, get(b).rest).Ok? {
      var ys := GetMany(get, n - 1, get(b).rest).value;
      assert xs + ([get(b).value] + ys) == xs + [get(b).value] + ys;
    }
  }

  lemma Regrouped(p: nat, x: nat)
    ensures 256 * (p * x) == 256 * p * x
  {}

  lemma {:induction false} FromLESnoc(a: seq<byte>, x: byte)
    ensures FromLE(a + [x]) == FromLE(a) + Pow256(|a|) * x
  {
    if a == [] {
      assert a + [x] == [x] && [x][1..] == [];
    } else {
      assert (a + [x])[1..] == a[1..] + [x];
      FromLESnoc(a[1..], x);
      Regrouped(Pow256(|a| - 1), x);
    }
  }

  /** What a read reports, and where it leaves the cursor. */
  ghost predicate Agrees<T(!new)>(p: Parse<T>, ok: bool, v: Option<T>, rest: seq<byte>) {
    if ok && p.Ok? then v == Some(p.value) && rest == p.rest else v.None?
  }

  /** A length is there and it is above the limit for strings. */
  predicate Overlong(b: seq<byte>) {
    GetNum(4, b).Ok? && GetNum(4, b).value > MAX_STRING
  }

  /** A bounded cursor with a sticky failure flag. A read yields nothing when it fails. */
  class ByteReader {
    const data: seq<byte>
    var pos: nat
    var ok: bool

    ghost predicate Valid()
      reads this
    {
      pos <= |data|
    }

    ghost function Rest(): seq<byte>
      requires Valid()
      reads this
    {
      data[pos..]
    }

    constructor (d: seq<byte>)
      ensures Valid() && data == d && ok && Rest() == d
    {
      data := d;
      pos := 0;
      ok := true;
    }

    predicate Need(n: nat)
      requires Valid()
      reads this
    {
      ok && n <= |data| - pos
    }

    method Take(n: nat) returns (r: Option<seq<byte>>)
      requires Valid()
      modifies this`pos
      ensures Valid() && Agrees(GetBytes(n, old(Rest())), old(ok), r, Rest())
    {
      if !Need(n) {
        return None;
      }
      assert data[pos..pos + n] == Rest()[..n];
      r := Some(data[pos..pos + n]);
      pos := pos + n;
    }

    /** Little-endian assembly, one byte at a time. */
    static method Assembled(s: seq<byte>) returns (v: nat)
      ensures v == FromLE(s)
    {
      var scale: nat := 1;
      v := 0;
      for i := 0 to |s|
        invariant v == FromLE(s[..i]) && scale == Pow256(i)
      {
        assert s[..i + 1] == s[..i] + [s[i]];
        FromLESnoc(s[..i], s[i]);
        v := v + scale * s[i];
        scale := 256 * scale;
      }
      assert s[..|s|] == s;
    }

    method Num(n: nat) returns (r: Option<nat>)
      requires Valid()
      modifies this`pos
      ensures Valid() && Agrees(GetNum(n, old(Rest())), old(ok), r, Rest())
    {
      if !Need(n) {
        return None;
      }
      var v := Assembled(data[pos..pos + n]);
      assert data[pos..pos + n] == Rest()[..n];
      r := Some(v);
      pos := pos + n;
    }

    method U8() returns (r: Option<byte>)
      requires Valid()
      modifies this`pos
      ensures Valid() && Agrees(GetByte(old(Rest())), old(ok), r, Rest())
    {
      if !Need(1) {
        return None;
      }
      r := Some(data[pos]);
      pos := pos + 1;
    }

    method Flag() returns (r: Option<bool>)
      requires Valid()
      modifies this`pos
      ensures Valid() && Agrees(GetFlag(old(Rest())), old(ok), r, Rest())
    {
      var b := U8();
      r := if b.Some? then Some(b.value != 0) else None;
    }

    method Quad() returns (r: Option<U64>)
      requires Valid()
      modifies this`pos
      ensures Valid() && Agrees(GetU64(old(Rest())), old(ok), r, Rest())
    {
      Pow256Of8();
      r := Num(8);
    }

    method Uuid() returns (r: Option<Uuid>)
      requires Valid()
      modifies this`pos
      ensures Valid() && Agrees(GetUuid(old(Rest())), old(ok), r, Rest())
    {
      Pow256Of16();
      var b := Take(16);
      r := if b.Some? then Some(FromBE(b.value)) else None;
    }

    method Digest() returns (r: Option<Digest>)
      requires Valid()
      modifies this`pos
      ensures Valid() && Agrees(GetDigest(old(Rest())), old(ok), r, Rest())
    {
      Pow256Of32();
      var b := Take(32);
      r := if b.Some? then Some(FromBE(b.value)) else None;
    }

    /** A string longer than the limit sets the failure flag, exactly then; and nothing can be read once it is set. */
    method Text() returns (r: Option<Text>)
      requires Valid()
      modifies this
      ensures Valid() && Agrees(GetText(old(Rest())), old(ok), r, Rest())
      ensures ok == (old(ok) && !Overlong(old(Rest())))
    {
      var n := Num(4);
      if n.None? {
        return None;
      }
      if n.value > MAX_STRING {
        ok := false;
        return None;
      }
      r := Take(n.value);
    }

    method OptUuid() returns (r: Option<Option<Uuid>>)
      requires Valid()
      modifies this`pos
      ensures Valid() && Agrees(GetOptUuid(old(Rest())), old(ok), r, Rest())
    {
      var present := Flag();
      if present != Some(true) {
        return if present.None? then None else Some(None);
      }
      var v := Uuid();
      r := if v.None? then None else Some(v);
    }

    method OptQuad() returns (r: Option<Option<U64>>)
      requires Valid()
      modifies this`pos
      ensures Valid() && Agrees(GetOptU64(old(Rest())), old(ok), r, Rest())
    {
      var present := Flag();
      if present != Some(true) {
        return if present.None? then None else Some(None);
      }
      var v := Quad();
      r := if v.None? then None else Some(v);
    }

    method OptDigest() returns (r: Option<Option<Digest>>)
      requires Valid()
      modifies this`pos
      ensures Valid() && Agrees(GetOptDigest(old(Rest())), old(ok), r, Rest())
    {
      var present := Flag();
      if present != Some(true) {
        return if present.None? then None else Some(None);
      }
      var v := Digest();
      r := if v.None? then None else Some(v);
    }

    method OptText() returns (r: Option<Option<Text>>)
      requires Valid()
      modifies this
      ensures Valid() && Agrees(GetOptText(old(Rest())), old(ok), r, Rest())
      ensures r.Some? ==> ok
    {
      var present := Flag();
      if present != Some(true) {
        return if present.None? then None else Some(None);
      }
      var v := Text();
      r := if v.None? then None else Some(v);
    }
  }

  /** A valid reader that has not failed. */
  ghost predicate Ready(r: ByteReader)
    reads r
  {
    r.Valid() && r.ok
  }

  /** What a method that reads several fields promises. */
  ghost predicate Took<T(!new)>(p: Parse<T>, v: Option<T>, r: ByteReader)
    reads r
  {
    r.Valid() && Agrees(p, true, v, r.Rest()) && (v.Some? ==> r.ok)
  }
}
