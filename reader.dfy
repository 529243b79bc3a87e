/** Positioned reads over a byte sequence: the primitive reader that every
    parser of the model uses.

    The pure functions say what is stored at an offset; the `Cursor` class is
    the seekable stream the parsers drive, and each of its reads is proved to
    return what the corresponding function says and to advance the position
    by what it consumed. */
module Reader {
  import opened Bytes
  import opened Results

  /** The little-endian u32 stored at `off`. */
  function U32(data: seq<byte>, off: nat): (v: nat)
    requires off + 4 <= |data|
    ensures v < 0x1_0000_0000
  {
    assert Pow256(4) == 0x1_0000_0000;
    LittleEndian(data[off..off + 4])
  }

  /** A 32-bit word at `off`: a u32 field, or the bit pattern of a float field. */
  function WordAt(data: seq<byte>, off: nat): Word
    requires off + 4 <= |data|
  {
    U32(data, off)
  }

  /** The little-endian u16 stored at `off`. */
  function U16(data: seq<byte>, off: nat): (v: nat)
    requires off + 2 <= |data|
    ensures v < 0x1_0000
  {
    assert Pow256(2) == 0x1_0000;
    LittleEndian(data[off..off + 2])
  }

  function U8(data: seq<byte>, off: nat): (v: nat)
    requires off + 1 <= |data|
    ensures v < 0x100
  {
    data[off] as nat
  }

  /** Re-encoding a fixed-width field gives its stored bytes back. */
  lemma FieldsReencode(data: seq<byte>, off: nat)
    requires off + 4 <= |data|
    ensures EncodeLittle(U32(data, off), 4) == data[off..off + 4]
    ensures EncodeLittle(U16(data, off), 2) == data[off..off + 2]
  {
    EncodeOfLittleEndian(data[off..off + 4]);
    EncodeOfLittleEndian(data[off..off + 2]);
  }

  /** n consecutive little-endian words from `off`. */
  function Words(data: seq<byte>, off: nat, n: nat): (r: Result<seq<Word>>)
    ensures r.Success? <==> n == 0 || off + 4 * n <= |data|
    ensures r.Success? ==> |r.value| == n
  {
    if n == 0 then Success([])
    else if off + 4 * n <= |data| then Success(seq(n, k requires 0 <= k < n => WordAt(data, off + 4 * k)))
    else Failure(Truncated)
  }

  /** n consecutive little-endian u16 values from `off`. */
  function U16s(data: seq<byte>, off: nat, n: nat): (r: Result<seq<nat>>)
    ensures r.Success? <==> n == 0 || off + 2 * n <= |data|
    ensures r.Success? ==> |r.value| == n
  {
    if n == 0 then Success([])
    else if off + 2 * n <= |data| then Success(seq(n, k requires 0 <= k < n => U16(data, off + 2 * k)))
    else Failure(Truncated)
  }

  /** n consecutive bytes from `off`. */
  function U8s(data: seq<byte>, off: nat, n: nat): (r: Result<seq<byte>>)
    ensures r.Success? <==> n == 0 || off + n <= |data|
    ensures r.Success? ==> |r.value| == n
  {
    if n == 0 then Success([])
    else if off + n <= |data| then Success(data[off..off + n])
    else Failure(Truncated)
  }

  function Min(a: nat, b: nat): nat
  {
    if a <= b then a else b
  }

  /** Python's `f.read(n)` at position `off`: up to n bytes, fewer at the end
      of the data, none past it. */
  function Take(data: seq<byte>, off: nat, n: nat): (s: seq<byte>)
    ensures |s| <= n
    ensures off + n <= |data| ==> s == data[off..off + n]
  {
    if off >= |data| then [] else data[off..Min(off + n, |data|)]
  }

  /** The position of the first NUL byte at or after `off`, if any. */
  function NulFrom(data: seq<byte>, off: nat): (r: Option<nat>)
    ensures r.Some? ==> off <= r.value < |data|
    decreases |data| - off
  {
    if off >= |data| then None
    else if data[off] == 0 then Some(off)
    else NulFrom(data, off + 1)
  }

  /** The NUL NulFrom finds is the first one at or after `off`; when it
      finds none, there is none. */
  lemma {:induction false} NulFromFirst(data: seq<byte>, off: nat)
    ensures NulFrom(data, off).Some? ==>
      && data[NulFrom(data, off).value] == 0
      && forall k :: off <= k < NulFrom(data, off).value ==> data[k] != 0
    ensures NulFrom(data, off).None? ==> forall k :: off <= k < |data| ==> data[k] != 0
    decreases |data| - off
  {
    if off < |data| && data[off] != 0 {
      NulFromFirst(data, off + 1);
    }
  }

  /** Bytes read as characters of the same code. */
  function Chars(s: seq<byte>): (r: string)
    ensures |r| == |s|
  {
    seq(|s|, i requires 0 <= i < |s| => (s[i] as int) as char)
  }

  /** The NUL-terminated string stored at `off`; missing terminator = truncated. */
  function CStringAt(data: seq<byte>, off: nat): Result<string>
  {
    match NulFrom(data, off)
    case Some(k) => Success(Chars(data[off..k]))
    case None => Failure(Truncated)
  }

  /** A string read at `off` is the run of non-NUL bytes there, and a NUL
      byte follows it. */
  lemma CStringAtStops(data: seq<byte>, off: nat)
    requires CStringAt(data, off).Success?
    ensures off + |CStringAt(data, off).value| < |data|
    ensures data[off + |CStringAt(data, off).value|] == 0
    ensures forall k :: 0 <= k < |CStringAt(data, off).value| ==>
      data[off + k] != 0 && CStringAt(data, off).value[k] == (data[off + k] as int) as char
  {
    NulFromFirst(data, off);
  }

  /** The bytes without their trailing NULs. */
  function TrimNuls(s: seq<byte>): (r: seq<byte>)
    ensures |r| <= |s| && r == s[..|r|]
    ensures forall k :: |r| <= k < |s| ==> s[k] == 0
    ensures r == [] || r[|r| - 1] != 0
  {
    if s != [] && s[|s| - 1] == 0 then TrimNuls(s[..|s| - 1]) else s
  }

  /** A fixed-length string field of n bytes at `off`, trailing NULs trimmed. */
  function FixedStringAt(data: seq<byte>, off: nat, n: nat): Result<string>
  {
    if off + n <= |data| then Success(Chars(TrimNuls(data[off..off + n])))
    else Failure(Truncated)
  }

  /** A read cursor over immutable bytes: Python's file object for a container. */
  class Cursor {
    const data: seq<byte>
    var pos: nat

    constructor (bytes: seq<byte>)
      ensures data == bytes && pos == 0
    {
      data := bytes;
      pos := 0;
    }

    method Seek(p: nat)
      modifies this
      ensures pos == p
    {
      pos := p;
    }

    /** A seek whose target is computed with a subtraction: a negative target fails. */
    method SeekSigned(p: int) returns (r: Outcome)
      modifies this
      ensures p < 0 <==> r == Fail(BadSeek)
      ensures p >= 0 ==> r == Pass && pos == p
    {
      if p < 0 {
        return Fail(BadSeek);
      }
      pos := p;
      return Pass;
    }

    method Skip(n: nat)
      modifies this
      ensures pos == old(pos) + n
    {
      pos := pos + n;
    }

    method ReadU32() returns (r: Result<nat>)
      modifies this
      ensures old(pos) + 4 <= |data| ==> r == Success(U32(data, old(pos))) && pos == old(pos) + 4
      ensures old(pos) + 4 > |data| ==> r == Failure(Truncated)
    {
      if pos + 4 > |data| {
        return Failure(Truncated);
      }
      r := Success(U32(data, pos));
      pos := pos + 4;
    }

    /** Reads a float field as its bit pattern. */
    method ReadWord() returns (r: Result<Word>)
      modifies this
      ensures old(pos) + 4 <= |data| ==> r == Success(WordAt(data, old(pos))) && pos == old(pos) + 4
      ensures old(pos) + 4 > |data| ==> r == Failure(Truncated)
    {
      if pos + 4 > |data| {
        return Failure(Truncated);
      }
      r := Success(WordAt(data, pos));
      pos := pos + 4;
    }

    /** n float fields in a row, little-endian. */
    method ReadWords(n: nat) returns (r: Result<seq<Word>>)
      modifies this
      ensures r == Words(data, old(pos), n)
      ensures r.Success? ==> pos == old(pos) + 4 * n
    {
      var acc: seq<Word> := [];
      var k := 0;
      ghost var start := pos;
      while k < n
        invariant 0 <= k <= n
        invariant pos == start + 4 * k
        invariant start + 4 * k <= |data| || k == 0
        invariant |acc| == k
        invariant forall i :: 0 <= i < k ==> acc[i] == WordAt(data, start + 4 * i)
      {
        var w := ReadWord();
        if w.Failure? {
          return Failure(Truncated);
        }
        acc := acc + [w.value];
        k := k + 1;
      }
      assert acc == Words(data, start, n).value;
      return Success(acc);
    }

    method ReadU16() returns (r: Result<nat>)
      modifies this
      ensures old(pos) + 2 <= |data| ==> r == Success(U16(data, old(pos))) && pos == old(pos) + 2
      ensures old(pos) + 2 > |data| ==> r == Failure(Truncated)
    {
      if pos + 2 > |data| {
        return Failure(Truncated);
      }
      r := Success(U16(data, pos));
      pos := pos + 2;
    }

    /** n u16 fields in a row, little-endian. */
    method ReadU16s(n: nat) returns (r: Result<seq<nat>>)
      modifies this
      ensures r == U16s(data, old(pos), n)
      ensures r.Success? ==> pos == old(pos) + 2 * n
    {
      var acc: seq<nat> := [];
      var k := 0;
      ghost var start := pos;
      while k < n
        invariant 0 <= k <= n
        invariant pos == start + 2 * k
        invariant start + 2 * k <= |data| || k == 0
        invariant |acc| == k
        invariant forall i :: 0 <= i < k ==> acc[i] == U16(data, start + 2 * i)
      {
        var v := ReadU16();
        if v.Failure? {
          return Failure(Truncated);
        }
        acc := acc + [v.value];
        k := k + 1;
      }
      assert acc == U16s(data, start, n).value;
      return Success(acc);
    }

    method ReadU8() returns (r: Result<nat>)
      modifies this
      ensures old(pos) + 1 <= |data| ==> r == Success(U8(data, old(pos))) && pos == old(pos) + 1
      ensures old(pos) + 1 > |data| ==> r == Failure(Truncated)
    {
      if pos + 1 > |data| {
        return Failure(Truncated);
      }
      r := Success(data[pos] as nat);
      pos := pos + 1;
    }

    /** n u8 fields in a row: the first one past the end fails the read. */
    method ReadU8s(n: nat) returns (r: Result<seq<byte>>)
      modifies this
      ensures r == U8s(data, old(pos), n)
      ensures r.Success? ==> pos == old(pos) + n
    {
      if n == 0 {
        return Success([]);
      }
      if pos + n > |data| {
        return Failure(Truncated);
      }
      r := Success(data[pos..pos + n]);
      pos := pos + n;
    }

    method ReadI8() returns (r: Result<int>)
      modifies this
      ensures old(pos) + 1 <= |data| ==> r == Success(Signed8(data[old(pos)])) && pos == old(pos) + 1
      ensures old(pos) + 1 > |data| ==> r == Failure(Truncated)
    {
      if pos + 1 > |data| {
        return Failure(Truncated);
      }
      r := Success(Signed8(data[pos]));
      pos := pos + 1;
    }

    /** `f.read(n)`: never fails, returns fewer bytes at the end. */
    method Read(n: nat) returns (s: seq<byte>)
      modifies this
      ensures s == Take(data, old(pos), n)
      ensures pos == old(pos) + |s|
    {
      s := Take(data, pos, n);
      pos := pos + |s|;
    }

    /** `f.read()`: everything from the position to the end. */
    method ReadRest() returns (s: seq<byte>)
      modifies this
      ensures s == Take(data, old(pos), |data|)
      ensures pos == old(pos) + |s|
    {
      s := Read(|data|);
    }

    method ReadCString() returns (r: Result<string>)
      modifies this
      ensures r == CStringAt(data, old(pos))
      ensures r.Success? ==> pos == old(pos) + |r.value| + 1
    {
      var p := pos;
      while p < |data| && data[p] != 0
        invariant pos <= p
        invariant p <= |data| || p == pos
        invariant NulFrom(data, p) == NulFrom(data, pos)
        decreases |data| - p
      {
        p := p + 1;
      }
      if p >= |data| {
        return Failure(Truncated);
      }
      r := Success(Chars(data[pos..p]));
      pos := p + 1;
    }

    method ReadFixedString(n: nat) returns (r: Result<string>)
      modifies this
      ensures r == FixedStringAt(data, old(pos), n)
      ensures r.Success? ==> pos == old(pos) + n
    {
      if pos + n > |data| {
        return Failure(Truncated);
      }
      r := Success(Chars(TrimNuls(data[pos..pos + n])));
      pos := pos + n;
    }
  }
}
