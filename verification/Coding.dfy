/** The little-endian byte writer and reader under the persistence and frame codecs. */
module Coding {
  import opened Types

  const MAX_STRING: nat := 0x10_0000

  // --- fixed-width words ----------------------------------------------------------------------

  function Pow256(k: nat): (p: nat)
    ensures p > 0
  {
    if k == 0 then 1 else 256 * Pow256(k - 1)
  }

  // The low k bytes of v, least significant first.
  function Le(v: nat, k: nat): (s: seq<Byte>)
    ensures |s| == k
  {
    if k == 0 then [] else [v % 256] + Le(v / 256, k - 1)
  }

  function UnLe(s: seq<Byte>): nat {
    if s == [] then 0 else s[0] + 256 * UnLe(s[1..])
  }

  lemma {:induction false} UnLeOfLe(v: nat, k: nat)
    requires v < Pow256(k)
    ensures UnLe(Le(v, k)) == v
  {
    if k > 0 {
      UnLeOfLe(v / 256, k - 1);
      assert Le(v, k)[1..] == Le(v / 256, k - 1);
    }
  }

  lemma {:induction false} LeOfUnLe(s: seq<Byte>)
    ensures UnLe(s) < Pow256(|s|) && Le(UnLe(s), |s|) == s
  {
    if s != [] {
      LeOfUnLe(s[1..]);
      LowByte(s[0], UnLe(s[1..]));
      assert s == [s[0]] + s[1..];
    }
  }

  lemma LowByte(b: Byte, high: nat)
    ensures (b + 256 * high) % 256 == b && (b + 256 * high) / 256 == high
  {}

  /** Words of equal width are equal exactly when their bytes are. */
  lemma UnLeInjective(s: seq<Byte>, t: seq<Byte>)
    requires |s| == |t| && UnLe(s) == UnLe(t)
    ensures s == t
  {
    LeOfUnLe(s);
    LeOfUnLe(t);
  }

  lemma Widths()
    ensures Pow256(1) == 256 && Pow256(2) == 0x1_0000 && Pow256(4) == U32_LIMIT && Pow256(8) == U64_LIMIT
  {
    assert Pow256(2) == 256 * Pow256(1);
    assert Pow256(3) == 256 * Pow256(2);
    assert Pow256(4) == 256 * Pow256(3);
    assert Pow256(5) == 256 * Pow256(4);
    assert Pow256(6) == 256 * Pow256(5);
    assert Pow256(7) == 256 * Pow256(6);
    assert Pow256(8) == 256 * Pow256(7);
  }

  function EncBool(b: bool): seq<Byte> {
    [if b then 1 else 0]
  }

  // A u32 length and the bytes; the length is the size as 32 bits keep it.
  function EncText(t: Text): seq<Byte> {
    Le(|t| % U32_LIMIT, 4) + t
  }

  // --- reading ----------------------------------------------------------------------------------

  // A value and the bytes not yet read.
  type Parse<T> = Result<(T, seq<Byte>)>

  function GetWord(s: seq<Byte>, k: nat): Parse<nat> {
    if |s| < k then Err(Truncation) else Ok((UnLe(s[..k]), s[k..]))
  }

  function GetText(s: seq<Byte>): Parse<Text> {
    match GetWord(s, 4)
    case Err(e) => Err(e)
    case Ok((len, rest)) =>
      if len > MAX_STRING then Err(OversizedFrame)
      else if |rest| < len then Err(Truncation)
      else Ok((rest[..len], rest[len..]))
  }

  lemma WordRoundTrip(v: nat, k: nat, rest: seq<Byte>)
    requires v < Pow256(k)
    ensures GetWord(Le(v, k) + rest, k) == Ok((v, rest))
  {
    UnLeOfLe(v, k);
    assert (Le(v, k) + rest)[..k] == Le(v, k) && (Le(v, k) + rest)[k..] == rest;
  }

  /** A written string reads back exactly when it is within the reader's bound. */
  lemma TextRoundTrip(t: Text, rest: seq<Byte>)
    requires |t| < U32_LIMIT
    ensures GetText(EncText(t) + rest) == if |t| <= MAX_STRING then Ok((t, rest)) else Err(OversizedFrame)
  {
    Widths();
    WordRoundTrip(|t|, 4, t + rest);
    assert EncText(t) + rest == Le(|t|, 4) + (t + rest);
    assert (t + rest)[..|t|] == t && (t + rest)[|t|..] == rest;
  }

  // --- the writer and the reader ----------------------------------------------------------------

  class ByteWriter {
    var buf: seq<Byte>

    constructor ()
      ensures buf == []
    {
      buf := [];
    }

    method PutByte(v: Byte)
      modifies this
      ensures buf == old(buf) + [v]
    {
      buf := buf + [v];
    }

    // put_u8, put_u16, put_u32 and put_u64 for k = 1, 2, 4, 8.
    method PutWord(v: nat, k: nat)
      modifies this
      ensures buf == old(buf) + Le(v, k)
    {
      var rest := v;
      for i := 0 to k
        invariant buf + Le(rest, k - i) == old(buf) + Le(v, k)
      {
        assert Le(rest, k - i) == [rest % 256] + Le(rest / 256, k - i - 1);
        PutByte(rest % 256);
        rest := rest / 256;
      }
    }

    method PutBool(b: bool)
      modifies this
      ensures buf == old(buf) + EncBool(b)
    {
      PutByte(if b then 1 else 0);
    }

    method PutText(t: Text)
      modifies this
      ensures buf == old(buf) + EncText(t)
    {
      PutWord(|t| % U32_LIMIT, 4);
      buf := buf + t;
    }
  }

  class ByteReader {
    const buf: seq<Byte>
    var pos: nat

    ghost predicate Valid()
      reads this
    {
      pos <= |buf|
    }

    ghost function Rest(): seq<Byte>
      requires Valid()
      reads this
    {
      buf[pos..]
    }

    constructor (buf: seq<Byte>)
      ensures Valid() && Rest() == buf && this.buf == buf && pos == 0
    {
      this.buf, pos := buf, 0;
    }

    method Remaining() returns (n: nat)
      requires Valid()
      ensures n == |Rest()|
    {
      n := |buf| - pos;
    }

    /** Takes the next k bytes as one word, or raises without moving. */
    method NextWord(k: nat) returns (r: Result<nat>)
      requires Valid()
      modifies this
      ensures Valid()
      ensures if old(pos) + k <= |buf| then r == Ok(UnLe(buf[old(pos)..old(pos) + k])) && pos == old(pos) + k
              else r == Err(Truncation) && pos == old(pos)
    {
      if |buf| - pos < k { return Err(Truncation); }
      ghost var bytes := buf[pos..pos + k];
      var v: nat := 0;
      var i := k;
      while i > 0
        invariant 0 <= i <= k && v == UnLe(bytes[i..])
      {
        i := i - 1;
        assert bytes[i..][1..] == bytes[i + 1..];
        v := buf[pos + i] + 256 * v;
      }
      assert bytes[0..] == bytes;
      pos := pos + k;
      return Ok(v);
    }

    // The same, seen from the bytes that are left.
    method ReadWord(k: nat) returns (r: Result<nat>)
      requires Valid()
      modifies this
      ensures Valid()
      ensures match GetWord(old(Rest()), k)
        case Ok(p) => r == Ok(p.0) && Rest() == p.1
        case Err(e) => r == Err(e) && Rest() == old(Rest())
    {
      assert pos + k <= |buf| ==> Rest()[..k] == buf[pos..pos + k] && Rest()[k..] == buf[pos + k..];
      r := NextWord(k);
    }

    method ReadByte() returns (r: Result<Byte>)
      requires Valid()
      modifies this
      ensures Valid()
      ensures if old(pos) < |buf| then r == Ok(buf[old(pos)]) && pos == old(pos) + 1 else r == Err(Truncation) && pos == old(pos)
    {
      if |buf| - pos < 1 { return Err(Truncation); }
      pos := pos + 1;
      return Ok(buf[pos - 1]);
    }

    method ReadText() returns (r: Result<Text>)
      requires Valid()
      modifies this
      ensures Valid()
      ensures match GetText(old(Rest()))
        case Ok(p) => r == Ok(p.0) && Rest() == p.1
        case Err(e) => r == Err(e)
    {
      var w := ReadWord(4);
      if w.Err? { return Err(w.error); }
      var len := w.value;
      if len > MAX_STRING { return Err(OversizedFrame); }
      if |buf| - pos < len { return Err(Truncation); }
      var t := buf[pos..pos + len];
      assert Rest()[..len] == t && Rest()[len..] == buf[pos + len..];
      pos := pos + len;
      return Ok(t);
    }
  }
}
