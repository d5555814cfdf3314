/**
 The little-endian binary codec on values: printers that put a value in front of what follows,
 and readers that take one off.
 */
module Binary {
  import opened Types

  // ------------------------------------------------------------------------------------------
  // Numbers and bytes.
  // ------------------------------------------------------------------------------------------

  function Pow256(n: nat): (p: nat)
    ensures p >= 1
  {
    if n == 0 then 1 else 256 * Pow256(n - 1)
  }

  lemma {:induction false} Pow256Add(m: nat, n: nat)
    ensures Pow256(m + n) == Pow256(m) * Pow256(n)
  {
    if m > 0 {
      Pow256Add(m - 1, n);
      assert Pow256(m + n) == 256 * Pow256(m - 1 + n);
    }
  }

  const U32: int := 0x1_0000_0000

  lemma Pow256Small()
    ensures Pow256(1) == 256 && Pow256(4) == U32
  {}

  lemma Pow256Of8()
    ensures Pow256(8) == U64_MAX + 1
  {
    Pow256Small();
    var n := 4;
    Pow256Add(n, n);
  }

  lemma Pow256Of16()
    ensures Pow256(16) == U128
  {
    Pow256Of8();
    var n := 8;
    Pow256Add(n, n);
  }

  lemma Pow256Of32()
    ensures Pow256(32) == U256
  {
    Pow256Of16();
    var n := 16;
    Pow256Add(n, n);
  }

  /** Least significant byte first. */
  function LE(v: nat, n: nat): (s: seq<byte>)
    ensures |s| == n
  {
    if n == 0 then [] else [v % 256] + LE(v / 256, n - 1)
  }

  function FromLE(s: seq<byte>): (v: nat)
    ensures v < Pow256(|s|)
  {
    if s == [] then 0 else s[0] + 256 * FromLE(s[1..])
  }

  lemma {:induction false} FromLEOfLE(v: nat, n: nat)
    requires v < Pow256(n)
    ensures FromLE(LE(v, n)) == v
  {
    if n > 0 {
      FromLEOfLE(v / 256, n - 1);
      assert LE(v, n)[1..] == LE(v / 256, n - 1);
    }
  }

  lemma LowAndHigh(low: byte, high: nat)
    ensures (low + 256 * high) % 256 == low && (low + 256 * high) / 256 == high
  {}

  lemma {:induction false} LEOfFromLE(s: seq<byte>)
    ensures LE(FromLE(s), |s|) == s
  {
    if s != [] {
      LEOfFromLE(s[1..]);
      LowAndHigh(s[0], FromLE(s[1..]));
      assert LE(FromLE(s), |s|) == [s[0]] + LE(FromLE(s[1..]), |s| - 1);
    }
  }

  /** Most significant byte first: the raw bytes of an identity or a digest. */
  function BE(v: nat, n: nat): (s: seq<byte>)
    ensures |s| == n
  {
    if n == 0 then [] else BE(v / 256, n - 1) + [v % 256]
  }

  function FromBE(s: seq<byte>): (v: nat)
    ensures v < Pow256(|s|)
  {
    if s == [] then 0 else 256 * FromBE(s[..|s| - 1]) + s[|s| - 1]
  }

  lemma {:induction false} FromBEOfBE(v: nat, n: nat)
    requires v < Pow256(n)
    ensures FromBE(BE(v, n)) == v
  {
    if n > 0 {
      FromBEOfBE(v / 256, n - 1);
      assert BE(v, n)[..n - 1] == BE(v / 256, n - 1);
    }
  }

  lemma {:induction false} BEOfFromBE(s: seq<byte>)
    ensures BE(FromBE(s), |s|) == s
  {
    if s != [] {
      var low, high := s[|s| - 1], s[..|s| - 1];
      BEOfFromBE(high);
      LowAndHigh(low, FromBE(high));
      assert BE(FromBE(s), |s|) == BE(FromBE(high), |s| - 1) + [low];
    }
  }

  // ------------------------------------------------------------------------------------------
  // Readers.
  // ------------------------------------------------------------------------------------------

  datatype Parse<+T> = Fail | Ok(value: T, rest: seq<byte>) {
    predicate IsFailure() { Fail? }
    function PropagateFailure<U>(): Parse<U>
      requires Fail?
    {
      Fail
    }
    function Extract(): (T, seq<byte>)
      requires Ok?
    {
      (value, rest)
    }
  }

  const MAX_STRING: nat := 0x10_0000
  const MAX_VECTOR: nat := 0x100_0000

  /** An unsigned little-endian number of n bytes. */
  function GetNum(n: nat, b: seq<byte>): (p: Parse<nat>)
    ensures p.Ok? ==> p.value < Pow256(n)
  {
    if |b| < n then Fail else Ok(FromLE(b[..n]), b[n..])
  }

  function GetByte(b: seq<byte>): Parse<byte> {
    if b == [] then Fail else Ok(b[0], b[1..])
  }

  function GetU64(b: seq<byte>): Parse<U64> {
    Pow256Of8();
    if |b| < 8 then Fail else Ok(FromLE(b[..8]), b[8..])
  }

  function GetUuid(b: seq<byte>): Parse<Uuid> {
    Pow256Of16();
    if |b| < 16 then Fail else Ok(FromBE(b[..16]), b[16..])
  }

  function GetDigest(b: seq<byte>): Parse<Digest> {
    Pow256Of32();
    if |b| < 32 then Fail else Ok(FromBE(b[..32]), b[32..])
  }

  /** Any nonzero byte means true. */
  function GetFlag(b: seq<byte>): Parse<bool> {
    if b == [] then Fail else Ok(b[0] != 0, b[1..])
  }

  function GetBytes(n: nat, b: seq<byte>): Parse<seq<byte>> {
    if |b| < n then Fail else Ok(b[..n], b[n..])
  }

  /** A length-prefixed string of at most 1 MiB. */
  function GetText(b: seq<byte>): Parse<Text> {
    var (n, b) :- GetNum(4, b);
    if n > MAX_STRING then Fail else GetBytes(n, b)
  }

  function GetOptUuid(b: seq<byte>): Parse<Option<Uuid>> {
    var (present, b) :- GetFlag(b);
    if !present then Ok(None, b) else
    var (v, b) :- GetUuid(b);
    Ok(Some(v), b)
  }

  function GetOptU64(b: seq<byte>): Parse<Option<U64>> {
    var (present, b) :- GetFlag(b);
    if !present then Ok(None, b) else
    var (v, b) :- GetU64(b);
    Ok(Some(v), b)
  }

  function GetOptDigest(b: seq<byte>): Parse<Option<Digest>> {
    var (present, b) :- GetFlag(b);
    if !present then Ok(None, b) else
    var (v, b) :- GetDigest(b);
    Ok(Some(v), b)
  }

  function GetOptText(b: seq<byte>): Parse<Option<Text>> {
    var (present, b) :- GetFlag(b);
    if !present then Ok(None, b) else
    var (v, b) :- GetText(b);
    Ok(Some(v), b)
  }

  // ------------------------------------------------------------------------------------------
  // Printers. Each promises that its reader takes back exactly what it put in front of k.
  // ------------------------------------------------------------------------------------------

  lemma TakePrefix(p: seq<byte>, k: seq<byte>)
    ensures (p + k)[..|p|] == p && (p + k)[|p|..] == k
  {}

  function PutNum(n: nat, v: nat, k: seq<byte>): (b: seq<byte>)
    requires v < Pow256(n)
    ensures GetNum(n, b) == Ok(v, k)
  {
    FromLEOfLE(v, n);
    TakePrefix(LE(v, n), k);
    LE(v, n) + k
  }

  function PutByte(v: byte, k: seq<byte>): (b: seq<byte>)
    ensures GetByte(b) == Ok(v, k)
  {
    [v] + k
  }

  function PutU64(v: U64, k: seq<byte>): (b: seq<byte>)
    ensures GetU64(b) == Ok(v, k)
  {
    Pow256Of8();
    FromLEOfLE(v, 8);
    TakePrefix(LE(v, 8), k);
    LE(v, 8) + k
  }

  function PutUuid(v: Uuid, k: seq<byte>): (b: seq<byte>)
    ensures GetUuid(b) == Ok(v, k)
  {
    Pow256Of16();
    FromBEOfBE(v, 16);
    TakePrefix(BE(v, 16), k);
    BE(v, 16) + k
  }

  function PutDigest(v: Digest, k: seq<byte>): (b: seq<byte>)
    ensures GetDigest(b) == Ok(v, k)
  {
    Pow256Of32();
    FromBEOfBE(v, 32);
    TakePrefix(BE(v, 32), k);
    BE(v, 32) + k
  }

  function PutFlag(v: bool, k: seq<byte>): (b: seq<byte>)
    ensures GetFlag(b) == Ok(v, k)
  {
    [if v then 1 else 0] + k
  }

  function PutBytes(s: seq<byte>, k: seq<byte>): (b: seq<byte>)
    ensures GetBytes(|s|, b) == Ok(s, k)
  {
    TakePrefix(s, k);
    s + k
  }

  /** The length is written modulo 2^32; the reader refuses lengths above 1 MiB. */
  function PutText(s: Text, k: seq<byte>): (b: seq<byte>)
    ensures |s| < U32 ==> GetText(b) == if |s| <= MAX_STRING then Ok(s, k) else Fail
  {
    Pow256Small();
    PutNum(4, |s| % U32, PutBytes(s, k))
  }

  function PutOptUuid(v: Option<Uuid>, k: seq<byte>): (b: seq<byte>)
    ensures GetOptUuid(b) == Ok(v, k)
  {
    PutFlag(v.Some?, if v.Some? then PutUuid(v.value, k) else k)
  }

  function PutOptU64(v: Option<U64>, k: seq<byte>): (b: seq<byte>)
    ensures GetOptU64(b) == Ok(v, k)
  {
    PutFlag(v.Some?, if v.Some? then PutU64(v.value, k) else k)
  }

  function PutOptDigest(v: Option<Digest>, k: seq<byte>): (b: seq<byte>)
    ensures GetOptDigest(b) == Ok(v, k)
  {
    PutFlag(v.Some?, if v.Some? then PutDigest(v.value, k) else k)
  }

  predicate TextFits(v: Option<Text>) {
    v.Some? ==> |v.value| < U32
  }

  predicate TextReads(v: Option<Text>) {
    v.Some? ==> |v.value| <= MAX_STRING
  }

  function PutOptText(v: Option<Text>, k: seq<byte>): (b: seq<byte>)
    ensures TextFits(v) ==> GetOptText(b) == if TextReads(v) then Ok(v, k) else Fail
  {
    PutFlag(v.Some?, if v.Some? then PutText(v.value, k) else k)
  }

  // ------------------------------------------------------------------------------------------
  // What a reader accepts.
  // ------------------------------------------------------------------------------------------

  /** For every byte of an encoding, whether it is a presence byte. Masks are built as the encoding is printed. */
  type Mask = seq<bool>

  function Plain(n: nat, m: Mask): (r: Mask)
    ensures |r| == n + |m|
    ensures forall i :: 0 <= i < n ==> !r[i]
    ensures forall i :: n <= i < |r| ==> r[i] == m[i - n]
  {
    seq(n, i => false) + m
  }

  function Presence(m: Mask): (r: Mask)
    ensures |r| == 1 + |m| && r[0]
    ensures forall i :: 1 <= i < |r| ==> r[i] == m[i - 1]
  {
    [true] + m
  }

  /** A presence byte, and the n bytes of the value if it is there. */
  function Optional(present: bool, n: nat, m: Mask): Mask {
    Presence(if present then Plain(n, m) else m)
  }

  function TextSize(v: Option<Text>): nat {
    if v.Some? then 4 + |v.value| else 0
  }

  /** c is b with presence bytes brought to 0 or 1, and with every other byte unchanged. */
  ghost predicate Normalised(b: seq<byte>, c: seq<byte>, m: Mask) {
    |b| == |c| == |m| && forall i :: 0 <= i < |b| ==> b[i] == c[i] || (m[i] && b[i] != 0 && c[i] == 1)
  }

  lemma NormalisedPrefix(p: seq<byte>, b: seq<byte>, c: seq<byte>, m: Mask)
    requires Normalised(b, c, m)
    ensures Normalised(p + b, p + c, Plain(|p|, m))
  {
    var r := Plain(|p|, m);
    forall i | 0 <= i < |p + b|
      ensures (p + b)[i] == (p + c)[i] || (r[i] && (p + b)[i] != 0 && (p + c)[i] == 1)
    {
      if i >= |p| {
        assert b[i - |p|] == c[i - |p|] || (m[i - |p|] && b[i - |p|] != 0 && c[i - |p|] == 1);
      }
    }
  }

  /** Everything a reader without presence bytes accepts is what its printer prints. */
  lemma NumAccepts(n: nat, b: seq<byte>)
    requires GetNum(n, b).Ok?
    ensures b == PutNum(n, GetNum(n, b).value, GetNum(n, b).rest)
  {
    LEOfFromLE(b[..n]);
  }

  lemma U64Accepts(b: seq<byte>)
    requires GetU64(b).Ok?
    ensures b == PutU64(GetU64(b).value, GetU64(b).rest)
  {
    LEOfFromLE(b[..8]);
  }

  lemma UuidAccepts(b: seq<byte>)
    requires GetUuid(b).Ok?
    ensures b == PutUuid(GetUuid(b).value, GetUuid(b).rest)
  {
    BEOfFromBE(b[..16]);
  }

  lemma DigestAccepts(b: seq<byte>)
    requires GetDigest(b).Ok?
    ensures b == PutDigest(GetDigest(b).value, GetDigest(b).rest)
  {
    BEOfFromBE(b[..32]);
  }

  lemma TextAccepts(b: seq<byte>)
    requires GetText(b).Ok?
    ensures |GetText(b).value| <= MAX_STRING
    ensures b == PutText(GetText(b).value, GetText(b).rest)
  {
    var p := GetNum(4, b);
    NumAccepts(4, b);
    assert p.rest == p.rest[..p.value] + p.rest[p.value..];
  }

  /** The step of the argument for each kind of field: normalise the rest, then the field. */
  lemma NormU64(b: seq<byte>, c: seq<byte>, m: Mask)
    requires GetU64(b).Ok? && Normalised(GetU64(b).rest, c, m)
    ensures Normalised(b, PutU64(GetU64(b).value, c), Plain(8, m))
  {
    U64Accepts(b);
    NormalisedPrefix(LE(GetU64(b).value, 8), GetU64(b).rest, c, m);
  }

  lemma NormUuid(b: seq<byte>, c: seq<byte>, m: Mask)
    requires GetUuid(b).Ok? && Normalised(GetUuid(b).rest, c, m)
    ensures Normalised(b, PutUuid(GetUuid(b).value, c), Plain(16, m))
  {
    UuidAccepts(b);
    NormalisedPrefix(BE(GetUuid(b).value, 16), GetUuid(b).rest, c, m);
  }

  lemma NormDigest(b: seq<byte>, c: seq<byte>, m: Mask)
    requires GetDigest(b).Ok? && Normalised(GetDigest(b).rest, c, m)
    ensures Normalised(b, PutDigest(GetDigest(b).value, c), Plain(32, m))
  {
    DigestAccepts(b);
    NormalisedPrefix(BE(GetDigest(b).value, 32), GetDigest(b).rest, c, m);
  }

  lemma NormNum(n: nat, b: seq<byte>, c: seq<byte>, m: Mask)
    requires GetNum(n, b).Ok? && Normalised(GetNum(n, b).rest, c, m)
    ensures Normalised(b, PutNum(n, GetNum(n, b).value, c), Plain(n, m))
  {
    NumAccepts(n, b);
    NormalisedPrefix(LE(GetNum(n, b).value, n), GetNum(n, b).rest, c, m);
  }

  lemma NormByte(b: seq<byte>, c: seq<byte>, m: Mask)
    requires GetByte(b).Ok? && Normalised(GetByte(b).rest, c, m)
    ensures Normalised(b, PutByte(GetByte(b).value, c), Plain(1, m))
  {
    NormalisedPrefix([b[0]], b[1..], c, m);
    assert b == [b[0]] + b[1..];
  }

  lemma NormFlag(b: seq<byte>, c: seq<byte>, m: Mask)
    requires GetFlag(b).Ok? && Normalised(GetFlag(b).rest, c, m)
    ensures Normalised(b, PutFlag(GetFlag(b).value, c), Presence(m))
  {
    var d, r := PutFlag(GetFlag(b).value, c), Presence(m);
    forall i | 0 <= i < |b|
      ensures b[i] == d[i] || (r[i] && b[i] != 0 && d[i] == 1)
    {
      if i > 0 {
        assert b[i] == b[1..][i - 1] && d[i] == c[i - 1] && r[i] == m[i - 1];
      }
    }
  }

  lemma PlainPlain(a: nat, b: nat, m: Mask)
    ensures Plain(a, Plain(b, m)) == Plain(a + b, m)
  {}

  lemma TextForm(b: seq<byte>, c: seq<byte>)
    requires GetText(b).Ok?
    ensures var n, s := GetNum(4, b), GetText(b).value;
            n.Ok? && n.rest == s + GetText(b).rest && PutText(s, c) == PutNum(4, n.value, s + c)
  {
    var n := GetNum(4, b);
    assert n.rest == n.rest[..n.value] + n.rest[n.value..];
  }

  lemma NormText(b: seq<byte>, c: seq<byte>, m: Mask)
    requires GetText(b).Ok? && Normalised(GetText(b).rest, c, m)
    ensures Normalised(b, PutText(GetText(b).value, c), Plain(4 + |GetText(b).value|, m))
  {
    var s := GetText(b).value;
    TextForm(b, c);
    NormalisedPrefix(s, GetText(b).rest, c, m);
    NormNum(4, b, s + c, Plain(|s|, m));
    PlainPlain(4, |s|, m);
  }

  lemma NormOptUuid(b: seq<byte>, c: seq<byte>, m: Mask)
    requires GetOptUuid(b).Ok? && Normalised(GetOptUuid(b).rest, c, m)
    ensures Normalised(b, PutOptUuid(GetOptUuid(b).value, c), Optional(GetOptUuid(b).value.Some?, 16, m))
  {
    var p := GetFlag(b);
    if p.value {
      NormUuid(p.rest, c, m);
      NormFlag(b, PutUuid(GetUuid(p.rest).value, c), Plain(16, m));
    } else {
      NormFlag(b, c, m);
    }
  }

  lemma NormOptU64(b: seq<byte>, c: seq<byte>, m: Mask)
    requires GetOptU64(b).Ok? && Normalised(GetOptU64(b).rest, c, m)
    ensures Normalised(b, PutOptU64(GetOptU64(b).value, c), Optional(GetOptU64(b).value.Some?, 8, m))
  {
    var p := GetFlag(b);
    if p.value {
      NormU64(p.rest, c, m);
      NormFlag(b, PutU64(GetU64(p.rest).value, c), Plain(8, m));
    } else {
      NormFlag(b, c, m);
    }
  }

  lemma NormOptDigest(b: seq<byte>, c: seq<byte>, m: Mask)
    requires GetOptDigest(b).Ok? && Normalised(GetOptDigest(b).rest, c, m)
    ensures Normalised(b, PutOptDigest(GetOptDigest(b).value, c), Optional(GetOptDigest(b).value.Some?, 32, m))
  {
    var p := GetFlag(b);
    if p.value {
      NormDigest(p.rest, c, m);
      NormFlag(b, PutDigest(GetDigest(p.rest).value, c), Plain(32, m));
    } else {
      NormFlag(b, c, m);
    }
  }

  lemma NormOptText(b: seq<byte>, c: seq<byte>, m: Mask)
    requires GetOptText(b).Ok? && Normalised(GetOptText(b).rest, c, m)
    ensures Normalised(b, PutOptText(GetOptText(b).value, c), Optional(GetOptText(b).value.Some?, TextSize(GetOptText(b).value), m))
    ensures TextReads(GetOptText(b).value)
  {
    var p := GetFlag(b);
    if p.value {
      var s := GetText(p.rest).value;
      TextAccepts(p.rest);
      NormText(p.rest, c, m);
      NormFlag(b, PutText(s, c), Plain(4 + |s|, m));
    } else {
      NormFlag(b, c, m);
    }
  }

  // ------------------------------------------------------------------------------------------
  // Conversely, whatever differs from an encoding in its presence bytes alone is read as the same value.
  // ------------------------------------------------------------------------------------------

  /** The value is read, and what follows differs from c in presence bytes alone. */
  ghost predicate Back<T>(p: Parse<T>, v: T, c: seq<byte>, m: Mask) {
    p.Ok? && p.value == v && Normalised(p.rest, c, m)
  }

  lemma PlainIsSame(p: seq<byte>, b: seq<byte>, c: seq<byte>, m: Mask)
    requires Normalised(b, p + c, Plain(|p|, m))
    ensures b == p + b[|p|..] && Normalised(b[|p|..], c, m)
  {
    var r := Plain(|p|, m);
    forall i | 0 <= i < |p|
      ensures b[i] == p[i]
    {
      assert !r[i] && (p + c)[i] == p[i];
    }
    forall i | 0 <= i < |c|
      ensures b[|p|..][i] == c[i] || (m[i] && b[|p|..][i] != 0 && c[i] == 1)
    {
      assert r[|p| + i] == m[i] && (p + c)[|p| + i] == c[i] && b[|p|..][i] == b[|p| + i];
    }
    assert b[..|p|] == p;
    assert b == b[..|p|] + b[|p|..];
  }

  lemma BackU64(v: U64, b: seq<byte>, c: seq<byte>, m: Mask)
    requires Normalised(b, PutU64(v, c), Plain(8, m))
    ensures Back(GetU64(b), v, c, m)
  {
    PlainIsSame(LE(v, 8), b, c, m);
    var k := b[8..];
    assert b == PutU64(v, k);
  }

  lemma BackUuid(v: Uuid, b: seq<byte>, c: seq<byte>, m: Mask)
    requires Normalised(b, PutUuid(v, c), Plain(16, m))
    ensures Back(GetUuid(b), v, c, m)
  {
    PlainIsSame(BE(v, 16), b, c, m);
    var k := b[16..];
    assert b == PutUuid(v, k);
  }

  lemma BackDigest(v: Digest, b: seq<byte>, c: seq<byte>, m: Mask)
    requires Normalised(b, PutDigest(v, c), Plain(32, m))
    ensures Back(GetDigest(b), v, c, m)
  {
    PlainIsSame(BE(v, 32), b, c, m);
    var k := b[32..];
    assert b == PutDigest(v, k);
  }

  lemma BackNum(n: nat, v: nat, b: seq<byte>, c: seq<byte>, m: Mask)
    requires v < Pow256(n) && Normalised(b, PutNum(n, v, c), Plain(n, m))
    ensures Back(GetNum(n, b), v, c, m)
  {
    PlainIsSame(LE(v, n), b, c, m);
    var k := b[n..];
    assert b == PutNum(n, v, k);
  }

  lemma BackByte(v: byte, b: seq<byte>, c: seq<byte>, m: Mask)
    requires Normalised(b, PutByte(v, c), Plain(1, m))
    ensures Back(GetByte(b), v, c, m)
  {
    PlainIsSame([v], b, c, m);
  }

  lemma BackFlag(v: bool, b: seq<byte>, c: seq<byte>, m: Mask)
    requires Normalised(b, PutFlag(v, c), Presence(m))
    ensures Back(GetFlag(b), v, c, m)
  {
    var d, r := PutFlag(v, c), Presence(m);
    forall i | 0 <= i < |c|
      ensures b[1..][i] == c[i] || (m[i] && b[1..][i] != 0 && c[i] == 1)
    {
      assert b[1..][i] == b[i + 1] && d[i + 1] == c[i] && r[i + 1] == m[i];
    }
    assert d[0] == if v then 1 else 0;
  }

  lemma BackText(s: Text, b: seq<byte>, c: seq<byte>, m: Mask)
    requires |s| <= MAX_STRING && Normalised(b, PutText(s, c), Plain(4 + |s|, m))
    ensures Back(GetText(b), s, c, m)
  {
    Pow256Small();
    PlainPlain(4, |s|, m);
    BackNum(4, |s| % U32, b, s + c, Plain(|s|, m));
    PlainIsSame(s, GetNum(4, b).rest, c, m);
  }

  lemma BackOptUuid(v: Option<Uuid>, b: seq<byte>, c: seq<byte>, m: Mask)
    requires Normalised(b, PutOptUuid(v, c), Optional(v.Some?, 16, m))
    ensures Back(GetOptUuid(b), v, c, m)
  {
    if v.Some? {
      BackFlag(true, b, PutUuid(v.value, c), Plain(16, m));
      BackUuid(v.value, GetFlag(b).rest, c, m);
    } else {
      BackFlag(false, b, c, m);
    }
  }

  lemma BackOptU64(v: Option<U64>, b: seq<byte>, c: seq<byte>, m: Mask)
    requires Normalised(b, PutOptU64(v, c), Optional(v.Some?, 8, m))
    ensures Back(GetOptU64(b), v, c, m)
  {
    if v.Some? {
      BackFlag(true, b, PutU64(v.value, c), Plain(8, m));
      BackU64(v.value, GetFlag(b).rest, c, m);
    } else {
      BackFlag(false, b, c, m);
    }
  }

  lemma BackOptDigest(v: Option<Digest>, b: seq<byte>, c: seq<byte>, m: Mask)
    requires Normalised(b, PutOptDigest(v, c), Optional(v.Some?, 32, m))
    ensures Back(GetOptDigest(b), v, c, m)
  {
    if v.Some? {
      BackFlag(true, b, PutDigest(v.value, c), Plain(32, m));
      BackDigest(v.value, GetFlag(b).rest, c, m);
    } else {
      BackFlag(false, b, c, m);
    }
  }

  lemma BackOptText(v: Option<Text>, b: seq<byte>, c: seq<byte>, m: Mask)
    requires TextReads(v) && Normalised(b, PutOptText(v, c), Optional(v.Some?, TextSize(v), m))
    ensures Back(GetOptText(b), v, c, m)
  {
    if v.Some? {
      BackFlag(true, b, PutText(v.value, c), Plain(4 + |v.value|, m));
      BackText(v.value, GetFlag(b).rest, c, m);
    } else {
      BackFlag(false, b, c, m);
    }
  }

  // ------------------------------------------------------------------------------------------
  // A reader looks at no byte beyond what it takes.
  // ------------------------------------------------------------------------------------------

  function Extended<T>(p: Parse<T>, x: seq<byte>): Parse<T> {
    if p.Ok? then Ok(p.value, p.rest + x) else Fail
  }

  lemma TakeExtends(b: seq<byte>, x: seq<byte>, n: nat)
    requires n <= |b|
    ensures (b + x)[..n] == b[..n] && (b + x)[n..] == b[n..] + x
  {}

  lemma FieldsExtend()
    ensures forall n: nat, b: seq<byte>, x: seq<byte> {:trigger GetNum(n, b + x)} ::
              GetNum(n, b).Ok? ==> GetNum(n, b + x) == Extended(GetNum(n, b), x)
    ensures forall n: nat, b: seq<byte>, x: seq<byte> {:trigger GetBytes(n, b + x)} ::
              GetBytes(n, b).Ok? ==> GetBytes(n, b + x) == Extended(GetBytes(n, b), x)
    ensures forall b: seq<byte>, x: seq<byte> {:trigger GetByte(b + x)} ::
              GetByte(b).Ok? ==> GetByte(b + x) == Extended(GetByte(b), x)
    ensures forall b: seq<byte>, x: seq<byte> {:trigger GetFlag(b + x)} ::
              GetFlag(b).Ok? ==> GetFlag(b + x) == Extended(GetFlag(b), x)
    ensures forall b: seq<byte>, x: seq<byte> {:trigger GetU64(b + x)} ::
              GetU64(b).Ok? ==> GetU64(b + x) == Extended(GetU64(b), x)
    ensures forall b: seq<byte>, x: seq<byte> {:trigger GetUuid(b + x)} ::
              GetUuid(b).Ok? ==> GetUuid(b + x) == Extended(GetUuid(b), x)
    ensures forall b: seq<byte>, x: seq<byte> {:trigger GetDigest(b + x)} ::
              GetDigest(b).Ok? ==> GetDigest(b + x) == Extended(GetDigest(b), x)
  {
    forall n: nat, b: seq<byte>, x: seq<byte> | n <= |b|
      ensures (b + x)[..n] == b[..n] && (b + x)[n..] == b[n..] + x
    {
      TakeExtends(b, x, n);
    }
  }

  lemma U64Extends(b: seq<byte>, x: seq<byte>)
    requires GetU64(b).Ok?
    ensures GetU64(b + x) == Extended(GetU64(b), x)
  {
    TakeExtends(b, x, 8);
  }

  lemma UuidExtends(b: seq<byte>, x: seq<byte>)
    requires GetUuid(b).Ok?
    ensures GetUuid(b + x) == Extended(GetUuid(b), x)
  {
    TakeExtends(b, x, 16);
  }

  lemma OptionsExtend()
    ensures forall b: seq<byte>, x: seq<byte> {:trigger GetText(b + x)} ::
              GetText(b).Ok? ==> GetText(b + x) == Extended(GetText(b), x)
    ensures forall b: seq<byte>, x: seq<byte> {:trigger GetOptUuid(b + x)} ::
              GetOptUuid(b).Ok? ==> GetOptUuid(b + x) == Extended(GetOptUuid(b), x)
    ensures forall b: seq<byte>, x: seq<byte> {:trigger GetOptU64(b + x)} ::
              GetOptU64(b).Ok? ==> GetOptU64(b + x) == Extended(GetOptU64(b), x)
    ensures forall b: seq<byte>, x: seq<byte> {:trigger GetOptDigest(b + x)} ::
              GetOptDigest(b).Ok? ==> GetOptDigest(b + x) == Extended(GetOptDigest(b), x)
  {
    FieldsExtend();
  }

  lemma OptTextExtends()
    ensures forall b: seq<byte>, x: seq<byte> {:trigger GetOptText(b + x)} ::
              GetOptText(b).Ok? ==> GetOptText(b + x) == Extended(GetOptText(b), x)
  {
    FieldsExtend();
    OptionsExtend();
  }

  // ------------------------------------------------------------------------------------------
  // A counted list of elements, for any element codec.
  // ------------------------------------------------------------------------------------------

  function PutMany<T>(put: (T, seq<byte>) -> seq<byte>, xs: seq<T>, k: seq<byte>): seq<byte> {
    if xs == [] then k else put(xs[0], PutMany(put, xs[1..], k))
  }

  function GetMany<T>(get: seq<byte> -> Parse<T>, n: nat, b: seq<byte>): (p: Parse<seq<T>>)
    ensures p.Ok? ==> |p.value| == n
  {
    if n == 0 then Ok([], b) else
    var (x, b) :- get(b);
    var (xs, b) :- GetMany(get, n - 1, b);
    Ok([x] + xs, b)
  }

  /** Elements that fit are read back if they are acceptable and refused otherwise. */
  ghost predicate RoundTrips<T(!new)>(get: seq<byte> -> Parse<T>, put: (T, seq<byte>) -> seq<byte>, fits: T -> bool, good: T -> bool) {
    forall x: T, k: seq<byte> {:trigger get(put(x, k))} ::
      fits(x) ==> get(put(x, k)) == if good(x) then Ok(x, k) else Fail
  }

  ghost predicate Normalises<T>(get: seq<byte> -> Parse<T>, put: (T, seq<byte>) -> seq<byte>, mask: (T, Mask) -> Mask,
                                good: T -> bool) {
    forall b: seq<byte>, c: seq<byte>, m: Mask :: get(b).Ok? && Normalised(get(b).rest, c, m) ==>
      Normalised(b, put(get(b).value, c), mask(get(b).value, m)) && good(get(b).value)
  }

  ghost predicate StopsInTime<T>(get: seq<byte> -> Parse<T>) {
    forall b: seq<byte>, x: seq<byte> {:trigger get(b + x)} :: get(b).Ok? ==> get(b + x) == Extended(get(b), x)
  }

  lemma {:induction false} ManyRoundTrip<T(!new)>(get: seq<byte> -> Parse<T>, put: (T, seq<byte>) -> seq<byte>,
                                            fits: T -> bool, good: T -> bool, xs: seq<T>, k: seq<byte>)
    requires RoundTrips(get, put, fits, good)
    requires forall i :: 0 <= i < |xs| ==> fits(xs[i])
    ensures GetMany(get, |xs|, PutMany(put, xs, k)) ==
            if forall i :: 0 <= i < |xs| ==> good(xs[i]) then Ok(xs, k) else Fail
  {
    if xs != [] {
      ManyRoundTrip(get, put, fits, good, xs[1..], k);
      assert get(put(xs[0], PutMany(put, xs[1..], k))).Ok? == good(xs[0]);
      assert xs == [xs[0]] + xs[1..];
      assert (forall i :: 0 <= i < |xs| ==> good(xs[i])) <==>
             good(xs[0]) && forall i :: 0 <= i < |xs[1..]| ==> good(xs[1..][i]);
    }
  }

  function MaskMany<T>(mask: (T, Mask) -> Mask, xs: seq<T>, m: Mask): Mask {
    if xs == [] then m else mask(xs[0], MaskMany(mask, xs[1..], m))
  }

  lemma {:induction false} ManyNormalises<T>(get: seq<byte> -> Parse<T>, put: (T, seq<byte>) -> seq<byte>,
                                             mask: (T, Mask) -> Mask, good: T -> bool,
                                             n: nat, b: seq<byte>, c: seq<byte>, m: Mask)
    requires Normalises(get, put, mask, good)
    requires GetMany(get, n, b).Ok? && Normalised(GetMany(get, n, b).rest, c, m)
    ensures Normalised(b, PutMany(put, GetMany(get, n, b).value, c), MaskMany(mask, GetMany(get, n, b).value, m))
    ensures forall i :: 0 <= i < n ==> good(GetMany(get, n, b).value[i])
  {
    if n > 0 {
      var p := get(b);
      var q := GetMany(get, n - 1, p.rest);
      ManyNormalises(get, put, mask, good, n - 1, p.rest, c, m);
      assert Normalised(b, put(p.value, PutMany(put, q.value, c)), mask(p.value, MaskMany(mask, q.value, m)));
      assert GetMany(get, n, b).value[1..] == q.value;
    }
  }

  lemma {:induction false} ManyExtends<T>(get: seq<byte> -> Parse<T>, n: nat, b: seq<byte>, x: seq<byte>)
    requires StopsInTime(get) && GetMany(get, n, b).Ok?
    ensures GetMany(get, n, b + x) == Extended(GetMany(get, n, b), x)
  {
    if n > 0 {
      ManyExtends(get, n - 1, get(b).rest, x);
    }
  }

  const MAX_COUNT: nat := 0x10_0000

  /** The count is written modulo 2^32; the reader refuses counts above 2^20. */
  function PutList<T>(put: (T, seq<byte>) -> seq<byte>, xs: seq<T>, k: seq<byte>): seq<byte> {
    Pow256Small();
    PutNum(4, |xs| % U32, PutMany(put, xs, k))
  }

  function GetList<T>(get: seq<byte> -> Parse<T>, b: seq<byte>): Parse<seq<T>> {
    var (n, b) :- GetNum(4, b);
    if n > MAX_COUNT then Fail else GetMany(get, n, b)
  }

  ghost predicate AllHold<T>(good: T -> bool, xs: seq<T>) {
    forall i :: 0 <= i < |xs| ==> good(xs[i])
  }

  lemma ListRoundTrip<T(!new)>(get: seq<byte> -> Parse<T>, put: (T, seq<byte>) -> seq<byte>,
                               fits: T -> bool, good: T -> bool, xs: seq<T>, k: seq<byte>)
    requires RoundTrips(get, put, fits, good) && AllHold(fits, xs) && |xs| < U32
    ensures GetList(get, PutList(put, xs, k)) ==
            if |xs| <= MAX_COUNT && AllHold(good, xs) then Ok(xs, k) else Fail
  {
    Pow256Small();
    ManyRoundTrip(get, put, fits, good, xs, k);
  }

  function MaskList<T>(mask: (T, Mask) -> Mask, xs: seq<T>, m: Mask): Mask {
    Plain(4, MaskMany(mask, xs, m))
  }

  lemma ListNormalises<T>(get: seq<byte> -> Parse<T>, put: (T, seq<byte>) -> seq<byte>,
                          mask: (T, Mask) -> Mask, good: T -> bool, b: seq<byte>, c: seq<byte>, m: Mask)
    requires Normalises(get, put, mask, good)
    requires GetList(get, b).Ok? && Normalised(GetList(get, b).rest, c, m)
    ensures Normalised(b, PutList(put, GetList(get, b).value, c), MaskList(mask, GetList(get, b).value, m))
    ensures |GetList(get, b).value| <= MAX_COUNT && AllHold(good, GetList(get, b).value)
  {
    var n := GetNum(4, b);
    var xs := GetList(get, b).value;
    ManyNormalises(get, put, mask, good, n.value, n.rest, c, m);
    NormNum(4, b, PutMany(put, xs, c), MaskMany(mask, xs, m));
    assert |xs| == n.value && |xs| % U32 == n.value;
    assert forall i :: 0 <= i < |xs| ==> good(xs[i]);
  }

  ghost predicate ReadsBack<T(!new)>(get: seq<byte> -> Parse<T>, put: (T, seq<byte>) -> seq<byte>, mask: (T, Mask) -> Mask,
                                     good: T -> bool) {
    forall v: T, b: seq<byte>, c: seq<byte>, m: Mask ::
      good(v) && Normalised(b, put(v, c), mask(v, m)) ==> Back(get(b), v, c, m)
  }

  lemma {:induction false} ManyBack<T(!new)>(get: seq<byte> -> Parse<T>, put: (T, seq<byte>) -> seq<byte>, mask: (T, Mask) -> Mask,
                                             good: T -> bool, xs: seq<T>, b: seq<byte>, c: seq<byte>, m: Mask)
    requires ReadsBack(get, put, mask, good) && AllHold(good, xs)
    requires Normalised(b, PutMany(put, xs, c), MaskMany(mask, xs, m))
    ensures Back(GetMany(get, |xs|, b), xs, c, m)
  {
    if xs != [] {
      var c1, m1 := PutMany(put, xs[1..], c), MaskMany(mask, xs[1..], m);
      assert good(xs[0]);
      assert Back(get(b), xs[0], c1, m1);
      ManyBack(get, put, mask, good, xs[1..], get(b).rest, c, m);
      assert xs == [xs[0]] + xs[1..];
    }
  }

  lemma ListBack<T(!new)>(get: seq<byte> -> Parse<T>, put: (T, seq<byte>) -> seq<byte>, mask: (T, Mask) -> Mask,
                          good: T -> bool, xs: seq<T>, b: seq<byte>, c: seq<byte>, m: Mask)
    requires ReadsBack(get, put, mask, good) && AllHold(good, xs) && |xs| <= MAX_COUNT
    requires Normalised(b, PutList(put, xs, c), MaskList(mask, xs, m))
    ensures Back(GetList(get, b), xs, c, m)
  {
    Pow256Small();
    BackNum(4, |xs| % U32, b, PutMany(put, xs, c), MaskMany(mask, xs, m));
    ManyBack(get, put, mask, good, xs, GetNum(4, b).rest, c, m);
  }

  lemma ListExtends<T>(get: seq<byte> -> Parse<T>, b: seq<byte>, x: seq<byte>)
    requires StopsInTime(get) && GetList(get, b).Ok?
    ensures GetList(get, b + x) == Extended(GetList(get, b), x)
  {
    TakeExtends(b, x, 4);
    ManyExtends(get, GetNum(4, b).value, GetNum(4, b).rest, x);
  }

  lemma {:induction false} ManyHold<T>(get: seq<byte> -> Parse<T>, good: T -> bool, n: nat, b: seq<byte>)
    requires forall c: seq<byte> :: get(c).Ok? ==> good(get(c).value)
    requires GetMany(get, n, b).Ok?
    ensures AllHold(good, GetMany(get, n, b).value)
  {
    if n > 0 {
      ManyHold(get, good, n - 1, get(b).rest);
    }
  }

  // ------------------------------------------------------------------------------------------
  // Lists whose elements are written in a wrapping, such as a length and a checksum.
  // ------------------------------------------------------------------------------------------

  /** get takes off exactly what put wraps around a good u that dec decodes. */
  ghost predicate ReadsWrapped<T, U(!new)>(get: seq<byte> -> Parse<T>, put: (U, seq<byte>) -> seq<byte>, dec: U -> Option<T>,
                                           good: U -> bool, inner: seq<byte> -> U) {
    && (forall b: seq<byte> {:trigger get(b)} :: get(b).Ok? ==>
          good(inner(b)) && dec(inner(b)) == Some(get(b).value) && b == put(inner(b), get(b).rest))
    && (forall u: U, k: seq<byte> {:trigger put(u, k)} :: good(u) && dec(u).Some? ==> get(put(u, k)) == Ok(dec(u).value, k))
  }

  ghost predicate Unwraps<T, U>(dec: U -> Option<T>, good: U -> bool, us: seq<U>, xs: seq<T>) {
    |us| == |xs| && forall i :: 0 <= i < |us| ==> good(us[i]) && dec(us[i]) == Some(xs[i])
  }

  lemma {:induction false} ManyUnwrap<T, U(!new)>(get: seq<byte> -> Parse<T>, put: (U, seq<byte>) -> seq<byte>, dec: U -> Option<T>,
                                                  good: U -> bool, inner: seq<byte> -> U, n: nat, b: seq<byte>) returns (us: seq<U>)
    requires ReadsWrapped(get, put, dec, good, inner) && GetMany(get, n, b).Ok?
    ensures Unwraps(dec, good, us, GetMany(get, n, b).value) && b == PutMany(put, us, GetMany(get, n, b).rest)
  {
    if n == 0 {
      us := [];
    } else {
      var rest := ManyUnwrap(get, put, dec, good, inner, n - 1, get(b).rest);
      us := [inner(b)] + rest;
      assert us[1..] == rest;
    }
  }

  lemma {:induction false} ManyOfWrapped<T, U(!new)>(get: seq<byte> -> Parse<T>, put: (U, seq<byte>) -> seq<byte>, dec: U -> Option<T>,
                                                     good: U -> bool, inner: seq<byte> -> U, us: seq<U>, xs: seq<T>, k: seq<byte>)
    requires ReadsWrapped(get, put, dec, good, inner) && Unwraps(dec, good, us, xs)
    ensures GetMany(get, |us|, PutMany(put, us, k)) == Ok(xs, k)
    decreases |us|
  {
    if us != [] {
      assert Unwraps(dec, good, us[1..], xs[1..]);
      ManyOfWrapped(get, put, dec, good, inner, us[1..], xs[1..], k);
      var tail := PutMany(put, us[1..], k);
      assert get(put(us[0], tail)) == Ok(xs[0], tail);
      assert xs == [xs[0]] + xs[1..];
    }
  }

  lemma ListUnwraps<T, U(!new)>(get: seq<byte> -> Parse<T>, put: (U, seq<byte>) -> seq<byte>, dec: U -> Option<T>,
                                good: U -> bool, inner: seq<byte> -> U, b: seq<byte>) returns (us: seq<U>)
    requires ReadsWrapped(get, put, dec, good, inner) && GetList(get, b).Ok?
    ensures |us| <= MAX_COUNT && Unwraps(dec, good, us, GetList(get, b).value) && b == PutList(put, us, GetList(get, b).rest)
  {
    Pow256Small();
    var n := GetNum(4, b);
    NumAccepts(4, b);
    us := ManyUnwrap(get, put, dec, good, inner, n.value, n.rest);
    assert |us| % U32 == n.value;
  }

  lemma ListOfWrapped<T, U(!new)>(get: seq<byte> -> Parse<T>, put: (U, seq<byte>) -> seq<byte>, dec: U -> Option<T>,
                                  good: U -> bool, inner: seq<byte> -> U, us: seq<U>, xs: seq<T>)
    requires ReadsWrapped(get, put, dec, good, inner) && |us| <= MAX_COUNT && Unwraps(dec, good, us, xs)
    ensures GetList(get, PutList(put, us, [])) == Ok(xs, [])
  {
    Pow256Small();
    ManyOfWrapped(get, put, dec, good, inner, us, xs, []);
    assert |us| % U32 == |us|;
  }
}
