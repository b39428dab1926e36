/**
  Bytes on the wire: big-endian numbers and length-prefixed fields (section 3 of
  RFC 8446), the way they are printed, and the reader that consumes them.
*/
module Wire {
  import opened Outcomes

  type Byte = x: int | 0 <= x < 256

  type Bytes = seq<Byte>

  /** A value that was read, and what is left to read. */
  datatype Read<+T> = Read(value: T, rest: Bytes)

  // -----------------------------------------------------------------
  // Printing
  // -----------------------------------------------------------------

  function U16(n: int): (b: Bytes)
    ensures |b| == 2
  {
    [(n / 0x100) % 0x100, n % 0x100]
  }

  function U24(n: int): (b: Bytes)
    ensures |b| == 3
  {
    [(n / 0x1_0000) % 0x100, (n / 0x100) % 0x100, n % 0x100]
  }

  function Vec8(x: Bytes): Bytes {
    [|x| % 0x100] + x
  }

  function Vec16(x: Bytes): Bytes {
    U16(|x|) + x
  }

  function Vec24(x: Bytes): Bytes {
    U24(|x|) + x
  }

  // -----------------------------------------------------------------
  // Reading
  // -----------------------------------------------------------------

  function Value16(b: Bytes): (n: int)
    requires |b| >= 2
    ensures 0 <= n < 0x1_0000
  {
    (b[0] as int) * 0x100 + b[1]
  }

  function Value24(b: Bytes): (n: int)
    requires |b| >= 3
    ensures 0 <= n < 0x100_0000
  {
    (b[0] as int) * 0x1_0000 + (b[1] as int) * 0x100 + b[2]
  }

  function Read8(b: Bytes): (r: Option<Read<int>>)
    ensures r.Some? ==> |r.value.rest| == |b| - 1
  {
    if |b| < 1 then None else Some(Read(b[0], b[1..]))
  }

  function Read16(b: Bytes): (r: Option<Read<int>>)
    ensures r.Some? ==> |r.value.rest| == |b| - 2
  {
    if |b| < 2 then None else Some(Read(Value16(b), b[2..]))
  }

  function Read24(b: Bytes): (r: Option<Read<int>>)
    ensures r.Some? ==> |r.value.rest| == |b| - 3
  {
    if |b| < 3 then None else Some(Read(Value24(b), b[3..]))
  }

  function ReadBytes(b: Bytes, size: int): (r: Option<Read<Bytes>>)
    requires size >= 0
    ensures r.Some? ==> |r.value.value| + |r.value.rest| == |b|
  {
    if |b| < size then None else Some(Read(b[..size], b[size..]))
  }

  function ReadVec8(b: Bytes): (r: Option<Read<Bytes>>)
    ensures r.Some? ==> |r.value.value| + |r.value.rest| == |b| - 1
  {
    var size :- Read8(b);
    ReadBytes(size.rest, size.value)
  }

  function ReadVec16(b: Bytes): (r: Option<Read<Bytes>>)
    ensures r.Some? ==> |r.value.value| + |r.value.rest| == |b| - 2
  {
    var size :- Read16(b);
    ReadBytes(size.rest, size.value)
  }

  function ReadVec24(b: Bytes): (r: Option<Read<Bytes>>)
    ensures r.Some? ==> |r.value.value| + |r.value.rest| == |b| - 3
  {
    var size :- Read24(b);
    ReadBytes(size.rest, size.value)
  }

  // -----------------------------------------------------------------
  // Reading and printing undo each other
  // -----------------------------------------------------------------

  lemma Digits16(hi: Byte, lo: Byte)
    ensures U16(hi * 0x100 + lo) == [hi, lo]
  {
    assert (hi * 0x100 + lo) / 0x100 == hi;
  }

  lemma Digits24(hi: Byte, mid: Byte, lo: Byte)
    ensures U24(hi * 0x1_0000 + mid * 0x100 + lo) == [hi, mid, lo]
  {
    var n := hi * 0x1_0000 + mid * 0x100 + lo;
    assert n / 0x100 == hi * 0x100 + mid;
    assert n / 0x1_0000 == hi;
  }

  lemma Value16Of(n: int, rest: Bytes)
    requires 0 <= n < 0x1_0000
    ensures Value16(U16(n) + rest) == n
  {
  }

  lemma Value24Of(n: int, rest: Bytes)
    requires 0 <= n < 0x100_0000
    ensures Value24(U24(n) + rest) == n
  {
    assert n == (n / 0x100) * 0x100 + n % 0x100;
    assert n / 0x100 == (n / 0x1_0000) * 0x100 + (n / 0x100) % 0x100;
  }

  lemma Read16Iff(b: Bytes, n: int, rest: Bytes)
    ensures Read16(b) == Some(Read(n, rest)) <==> 0 <= n < 0x1_0000 && b == U16(n) + rest
  {
    if |b| >= 2 {
      Digits16(b[0], b[1]);
      assert b == [b[0], b[1]] + b[2..];
    }
    if 0 <= n < 0x1_0000 && b == U16(n) + rest {
      Value16Of(n, rest);
      assert b[2..] == rest;
    }
  }

  lemma Read24Iff(b: Bytes, n: int, rest: Bytes)
    ensures Read24(b) == Some(Read(n, rest)) <==> 0 <= n < 0x100_0000 && b == U24(n) + rest
  {
    hide U24;
    hide Value24;
    if |b| >= 3 {
      Digits24(b[0], b[1], b[2]);
      ValueOfDigits(b);
      assert b == [b[0], b[1], b[2]] + b[3..];
    }
    if 0 <= n < 0x100_0000 && b == U24(n) + rest {
      Value24Of(n, rest);
      assert b[3..] == rest;
    }
  }

  lemma ValueOfDigits(b: Bytes)
    requires |b| >= 3
    ensures Value24(b) == (b[0] as int) * 0x1_0000 + (b[1] as int) * 0x100 + b[2]
  {
  }

  lemma BytesIff(b: Bytes, size: nat, x: Bytes, rest: Bytes)
    ensures ReadBytes(b, size) == Some(Read(x, rest)) <==> |x| == size && b == x + rest
  {
    if |x| == size && b == x + rest { assert b[..size] == x && b[size..] == rest; }
  }

  lemma Vec8Iff(b: Bytes, x: Bytes, rest: Bytes)
    ensures ReadVec8(b) == Some(Read(x, rest)) <==> |x| < 0x100 && b == Vec8(x) + rest
  {
    if |b| >= 1 {
      BytesIff(b[1..], b[0], x, rest);
      assert b == [b[0]] + b[1..];
      if |x| == b[0] && b[1..] == x + rest { assert b == Vec8(x) + rest; }
    }
    if |x| < 0x100 && b == Vec8(x) + rest { assert b[1..] == x + rest; }
  }

  lemma Vec16Iff(b: Bytes, x: Bytes, rest: Bytes)
    ensures ReadVec16(b) == Some(Read(x, rest)) <==> |x| < 0x1_0000 && b == Vec16(x) + rest
  {
    hide U16;
    hide Value16;
    assert Vec16(x) + rest == U16(|x|) + (x + rest);
    Read16Iff(b, |x|, x + rest);
    if |b| >= 2 {
      Read16Iff(b, Value16(b), b[2..]);
      BytesIff(b[2..], Value16(b), x, rest);
    }
  }

  lemma Vec24Iff(b: Bytes, x: Bytes, rest: Bytes)
    ensures ReadVec24(b) == Some(Read(x, rest)) <==> |x| < 0x100_0000 && b == Vec24(x) + rest
  {
    hide U24;
    hide Value24;
    assert Vec24(x) + rest == U24(|x|) + (x + rest);
    Read24Iff(b, |x|, x + rest);
    if |b| >= 3 {
      Read24Iff(b, Value24(b), b[3..]);
      BytesIff(b[3..], Value24(b), x, rest);
    }
  }

  // -----------------------------------------------------------------
  // Lists of numbers
  // -----------------------------------------------------------------

  predicate InRange(list: seq<int>) {
    forall i :: 0 <= i < |list| ==> 0 <= list[i] < 0x1_0000
  }

  function Print16s(list: seq<int>): (b: Bytes)
    ensures |b| == 2 * |list|
  {
    if list == [] then [] else U16(list[0]) + Print16s(list[1..])
  }

  /** The numbers that pairs of bytes stand for. */
  function Pairs(b: Bytes): (list: seq<int>)
    requires |b| % 2 == 0
    ensures |list| == |b| / 2 && InRange(list)
  {
    if b == [] then [] else [Value16(b)] + Pairs(b[2..])
  }

  lemma {:induction false} PairsIff(b: Bytes, list: seq<int>)
    requires |b| % 2 == 0
    ensures Pairs(b) == list <==> InRange(list) && b == Print16s(list)
    decreases |b|
  {
    hide U16;
    hide Value16;
    if b != [] {
      Read16Iff(b, Value16(b), b[2..]);
      if list != [] {
        PairsIff(b[2..], list[1..]);
        Read16Iff(b, list[0], Print16s(list[1..]));
        assert list == [list[0]] + list[1..];
      }
    }
  }

  /** The number at a place of a list. */
  lemma {:induction false} PairsMore(b: Bytes, i: nat)
    requires |b| % 2 == 0 && i % 2 == 0 && i + 2 <= |b|
    ensures Pairs(b[..i + 2]) == Pairs(b[..i]) + [Value16(b[i..])]
    decreases i
  {
    hide Value16;
    if i == 0 {
      assert b[..2] == b[..2] && b[..2][2..] == [];
      Value16Prefix(b, 2);
    } else {
      PairsMore(b[2..], i - 2);
      assert b[..i + 2][2..] == b[2..][..i] && b[..i][2..] == b[2..][..i - 2] && b[2..][i - 2..] == b[i..];
      Value16Prefix(b, i);
      Value16Prefix(b, i + 2);
    }
  }

  lemma Value16Prefix(b: Bytes, n: nat)
    requires 2 <= n <= |b|
    ensures Value16(b[..n]) == Value16(b)
  {
  }

  // -----------------------------------------------------------------
  // The reader
  // -----------------------------------------------------------------

  class ByteReader {
    const bytes: Bytes
    var pos: nat

    ghost predicate Valid()
      reads this
    {
      pos <= |bytes|
    }

    /** What is left to read. */
    function Rest(): Bytes
      requires Valid()
      reads this
    {
      bytes[pos..]
    }

    function Remaining(): nat
      requires Valid()
      reads this
      ensures Remaining() == |Rest()|
    {
      |bytes| - pos
    }

    /** Whether a value was taken off the front, or nothing for want of bytes. */
    ghost predicate Taken<T>(r: Option<T>, before: nat, read: Option<Read<T>>)
      requires Valid()
      reads this
    {
      match read
      case None => r == None && pos == before
      case Some(x) => r == Some(x.value) && Rest() == x.rest
    }

    constructor (bytes: Bytes)
      ensures Valid() && Rest() == bytes && this.bytes == bytes && pos == 0
    {
      this.bytes, pos := bytes, 0;
    }

    method TakeU8() returns (r: Option<int>)
      requires Valid()
      modifies this
      ensures Valid()
      ensures Taken(r, old(pos), Read8(old(Rest()))) && (r.Some? ==> 0 <= r.value < 0x100)
    {
      if Remaining() < 1 { return None; }
      r := Some(bytes[pos]);
      pos := pos + 1;
    }

    method TakeU16() returns (r: Option<int>)
      requires Valid()
      modifies this
      ensures Valid()
      ensures Taken(r, old(pos), Read16(old(Rest()))) && (r.Some? ==> 0 <= r.value < 0x1_0000)
    {
      if Remaining() < 2 { return None; }
      r := Some((bytes[pos] as int) * 0x100 + bytes[pos + 1]);
      pos := pos + 2;
    }

    method TakeU24() returns (r: Option<int>)
      requires Valid()
      modifies this
      ensures Valid()
      ensures Taken(r, old(pos), Read24(old(Rest()))) && (r.Some? ==> 0 <= r.value < 0x100_0000)
    {
      if Remaining() < 3 { return None; }
      r := Some((bytes[pos] as int) * 0x1_0000 + (bytes[pos + 1] as int) * 0x100 + bytes[pos + 2]);
      pos := pos + 3;
    }

    method TakeBytes(size: nat) returns (r: Option<Bytes>)
      requires Valid()
      modifies this
      ensures Valid()
      ensures Taken(r, old(pos), ReadBytes(old(Rest()), size))
    {
      if Remaining() < size { return None; }
      r := Some(bytes[pos..pos + size]);
      assert Rest()[..size] == bytes[pos..pos + size];
      pos := pos + size;
    }
  }
}
