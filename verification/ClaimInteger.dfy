/**
  The 352-bit unsigned integer of the mobile scheduler: eleven words, a product
  that wraps at 2^352, and its own bisection for the connection budget.
*/
module ClaimIntegers {
  import opened Limbs
  import opened Outcomes
  import opened BudgetCutoff

  const WORDS: nat := 11

  datatype ClaimInteger = ClaimInteger(words: seq<Word>) {

    ghost predicate Valid() {
      |words| == WORDS
    }

    /** Adds one; only the all-ones value wraps. */
    method PlusOne() returns (result: ClaimInteger)
      requires Valid()
      ensures result.Valid()
      ensures Value(result.words) == (Value(words) + 1) % Pow(WORDS)
    {
      var sum := words;
      var i := 0;
      PowZero();
      hide Pow;
      hide Value;
      while i < WORDS
        invariant 0 <= i <= WORDS && |sum| == WORDS
        invariant Value(sum) + Pow(i) == Value(words) + 1
        invariant forall k :: i <= k < WORDS ==> sum[k] == words[k]
      {
        ghost var was := sum;
        var overflow := sum[i] == 0xFFFF_FFFF;
        sum := sum[i := if overflow then 0 else sum[i] + 1];
        IncrementWord(was, sum, i);
        if !overflow {
          Wrapped(sum, 0);
          return ClaimInteger(sum);
        }
        i := i + 1;
      }
      Wrapped(sum, 1);
      return ClaimInteger(sum);
    }

    /** Schoolbook product with a 64-bit count, cut to eleven words. */
    method Multiplied(value: Count) returns (result: ClaimInteger)
      requires Valid()
      ensures result.Valid()
      ensures Value(result.words) == Value(words) * value % Pow(WORDS)
    {
      hide Pow;
      hide Row;
      var factors: seq<Word> := [value % BASE, value / BASE];
      HalvesValue(factors, value);
      var product: seq<Word> := seq(WORDS, _ => 0);
      ValueZeros(WORDS);
      ghost var dropped: nat := 0;
      assert factors[..0] == [] && Value(factors[..0]) == 0;
      hide Value;
      for offset := 0 to 2
        invariant |product| == WORDS
        invariant Value(product) + dropped * Pow(WORDS) == Value(words) * Value(factors[..offset])
      {
        ghost var lost: nat := 0;
        ghost var before := product;
        if factors[offset] != 0 {
          product, lost := AddRow(product, factors[offset], offset);
        }
        RowTotal(words, Value(before), Value(product), dropped, lost, factors, offset);
        dropped := dropped + lost;
      }
      assert factors[..2] == factors;
      Wrapped(product, dropped);
      return ClaimInteger(product);
    }

    /** One row of the product; what leaves the top word is dropped. */
    method AddRow(product: seq<Word>, factor: Word, offset: nat) returns (sum: seq<Word>, ghost lost: nat)
      requires Valid() && |product| == WORDS && offset < 2
      ensures |sum| == WORDS
      ensures Value(sum) + lost * Pow(WORDS) == Value(product) + Row(factor, words, offset)
    {
      sum := product;
      var carry: Word := 0;
      NoCarry(sum, words, factor, offset);
      assert offset + 0 == offset;
      hide WithCarry;
      hide Row;
      for index := 0 to WORDS - offset
        invariant |sum| == WORDS
        invariant WithCarry(sum, carry, index + offset) == Value(product) + Row(factor, words[..index], offset)
      {
        PartFits(words[index], factor, sum[index + offset], carry);
        var next := words[index] * factor + sum[index + offset] + carry;
        ghost var was, oldCarry: Word := sum, carry;
        sum := sum[index + offset := next % BASE];
        carry := next / BASE;
        RowStep(was, sum, words, factor, index, offset, oldCarry, carry);
      }
      var top := WORDS - offset;
      lost := carry + Value(words[top..]) * factor;
      RowTail(sum, words, factor, offset, carry);
    }

    /** The order of the numbers, decided at the highest differing word. */
    method Less(other: ClaimInteger) returns (less: bool)
      requires Valid() && other.Valid()
      ensures less <==> Value(words) < Value(other.words)
    {
      for index := WORDS downto 0
        invariant words[index..] == other.words[index..]
      {
        if words[index] != other.words[index] {
          if words[index] < other.words[index] {
            ValueCompare(words, other.words, index);
          } else {
            ValueCompare(other.words, words, index);
          }
          return words[index] < other.words[index];
        }
        assert words[index..] == [words[index]] + words[index + 1..];
        assert other.words[index..] == [other.words[index]] + other.words[index + 1..];
      }
      assert words[0..] == words && other.words[0..] == other.words;
      return false;
    }

    /** Called on target + 1: the cutoff that the desktop computes with nine limbs. */
    method CaptureStopCount() returns (stop: Count)
      requires Valid() && 1 <= Value(words) <= Pow(8)
      ensures stop == StopCount(Value(words) - 1)
    {
      hide Value;
      hide Pow;
      ghost var target := Value(words) - 1;
      var twice := ClaimInteger(seq(WORDS, k => if k == 8 then 2 else 0));
      LimitValue(twice.words);
      var low: Count, high: Count := 0, MAX_COUNT;
      while low < high
        invariant low <= high
        invariant low == 0 || !Above(target, low - 1)
        invariant high == MAX_COUNT || Above(target, high)
      {
        var middle := low + (high - low) / 2;
        var product := Multiplied(middle);
        ProductExact(Value(words), middle);
        var above := twice.Less(product);
        assert above <==> Above(target, middle) by { assert Value(words) * middle == middle * (target + 1); }
        if above { high := middle; } else { low := middle + 1; }
      }
      if low > 0 { ExceedsIff(target, low - 1); }
      ExceedsIff(target, low);
      return low;
    }
  }

  /** The Swift initialiser: the target, or nothing when it is not 32 bytes. */
  method FromBytes(bytes: seq<Byte>) returns (r: Option<ClaimInteger>)
    ensures r.Some? <==> |bytes| == TARGET_BYTES
    ensures r.Some? ==> r.value.Valid() && Value(r.value.words) == BigEndian(bytes)
  {
    if |bytes| != TARGET_BYTES { return None; }
    var words := new Word[11](_ => 0);
    PackBytes(bytes, words);
    return Some(ClaimInteger(words[..]));
  }

  /** What ClaimCandidate stores: the phone, the desktop and Python agree on every target. */
  method CandidateStopCount(bytes: seq<Byte>) returns (r: Option<Count>)
    ensures r.Some? <==> |bytes| == TARGET_BYTES
    ensures r.Some? ==> r.value == StopCount(BigEndian(bytes))
  {
    hide Pow;
    hide Value;
    hide StopCount;
    hide BigEndian;
    var target := FromBytes(bytes);
    if target.None? { return None; }
    var plusOne := target.value.PlusOne();
    TargetFits(bytes);
    PowNext(9);
    PowNext(10);
    SmallRemainder(BigEndian(bytes) + 1, Pow(WORDS));
    var stop := plusOne.CaptureStopCount();
    return Some(stop);
  }

  // -----------------------------------------------------------------
  // Arithmetic of the wrapped product
  // -----------------------------------------------------------------

  lemma SmallRemainder(v: int, p: int)
    requires 0 <= v < p
    ensures v % p == v
  {
  }

  lemma {:induction false} WrapRemainder(v: int, times: nat, p: int)
    requires 0 <= v < p
    ensures (v + times * p) % p == v
    decreases times
  {
    if times > 0 {
      WrapRemainder(v, times - 1, p);
      var w := v + (times - 1) * p;
      assert v + times * p == w + p;
      assert (w + p) % p == w % p by {
        assert w == p * (w / p) + w % p;
        assert w + p == p * (w / p + 1) + w % p by { MulDist(p, w / p, 1); }
        QuotientUnique(w + p, p, w / p + 1, w % p);
      }
    }
  }

  /** Eleven words are what remains of a number once multiples of 2^352 are dropped. */
  lemma Wrapped(ws: seq<Word>, dropped: nat)
    requires |ws| == WORDS
    ensures (Value(ws) + dropped * Pow(WORDS)) % Pow(WORDS) == Value(ws)
  {
    ValueBound(ws);
    hide Pow;
    hide Value;
    WrapRemainder(Value(ws), dropped, Pow(WORDS));
  }

  lemma QuotientUnique(x: int, p: int, q: int, r: int)
    requires p > 0 && x == p * q + r && 0 <= r < p
    ensures x % p == r
  {
    var d := x / p - q;
    assert p * (x / p) + x % p == x;
    assert p * d == r - x % p by { MulDist(p, x / p, -q); assert p * -q == -(p * q); }
    if d >= 1 { MulMono(p, 1, d); } else if d <= -1 { MulMono(p, d, -1); } else { assert p * 0 == 0; }
  }

  lemma IncrementWord(was: seq<Word>, now: seq<Word>, i: nat)
    requires |was| == |now| && i < |was|
    requires now == was[i := if was[i] == 0xFFFF_FFFF then 0 else was[i] + 1]
    ensures Value(was) + Pow(i) == Value(now) + if was[i] == 0xFFFF_FFFF then Pow(i + 1) else 0
  {
    ValueUpdate(was, i, now[i]);
    var p := Pow(i);
    if was[i] == 0xFFFF_FFFF { assert p * (0 - 0xFFFF_FFFF) + BASE * p == p; }
  }

  lemma RowTotal(words: seq<Word>, before: int, after: int, dropped: nat, lost: nat, factors: seq<Word>, offset: nat)
    requires |factors| == 2 && offset < 2
    requires before + dropped * Pow(WORDS) == Value(words) * Value(factors[..offset])
    requires factors[offset] == 0 ==> after == before && lost == 0
    requires factors[offset] != 0 ==> after + lost * Pow(WORDS) == before + Row(factors[offset], words, offset)
    ensures after + (dropped + lost) * Pow(WORDS) == Value(words) * Value(factors[..offset + 1])
  {
    hide Value;
    hide Pow;
    ValueSnoc(factors, offset);
    var p, q, f: int, w := Pow(WORDS), Pow(offset), factors[offset], Value(words);
    MulDist(p, dropped, lost);
    assert p * (dropped + lost) == (dropped + lost) * p && p * dropped == dropped * p && p * lost == lost * p;
    MulDist(w, Value(factors[..offset]), q * f);
    assert w * (q * f) == f * w * q by { MulAssoc(f, w, q); MulAssoc(w, q, f); assert w * q * f == f * (w * q); }
    if f == 0 { assert f * w * q == 0 by { assert f * w == 0; } }
  }

  lemma RowStep(was: seq<Word>, now: seq<Word>, ws: seq<Word>, f: Word, index: nat, offset: nat, oldCarry: Word,
                carry: Word)
    requires |was| == |now| == |ws| == WORDS && index + offset < WORDS
    requires now == was[index + offset := now[index + offset]]
    requires ws[index] * f + was[index + offset] + oldCarry == carry * BASE + now[index + offset]
    ensures WithCarry(now, carry, index + offset + 1) - WithCarry(was, oldCarry, index + offset) ==
            Row(f, ws[..index + 1], offset) - Row(f, ws[..index], offset)
  {
    var at := index + offset;
    ValueUpdate(was, at, now[at]);
    ValueSnoc(ws, index);
    PowAdd(index, offset);
    assert f * ws[index] == ws[index] * f;
    hide Value;
    hide Pow;
    MultiplyArithmetic(Pow(offset), Pow(index), f, ws[index], was[at], now[at], oldCarry, carry, Value(ws[..index]));
    assert Pow(offset) * Pow(index) == Pow(index) * Pow(offset);
    assert Pow(at + 1) == BASE * Pow(at) by { PowNext(at); }
  }

  /** What leaves the top word: the last carry and the words that were never reached. */
  lemma RowTail(sum: seq<Word>, words: seq<Word>, f: Word, offset: nat, carry: Word)
    requires |words| == WORDS && offset < 2
    ensures WithCarry(sum, carry, WORDS) + Row(f, words, offset) - Row(f, words[..WORDS - offset], offset) ==
            Value(sum) + (carry + Value(words[WORDS - offset..]) * f) * Pow(WORDS)
  {
    hide Value;
    hide Pow;
    var top := WORDS - offset;
    assert words == words[..top] + words[top..];
    ValueAppend(words[..top], words[top..]);
    PowAdd(top, offset);
    TailArithmetic(Value(words[..top]), Value(words[top..]), Pow(top), Pow(offset), f, carry);
  }

  lemma TailArithmetic(low: int, high: int, p: int, q: int, f: int, carry: int)
    ensures f * (low + p * high) * q == f * low * q + high * f * (p * q)
    ensures (carry + high * f) * (p * q) == carry * (p * q) + high * f * (p * q)
  {
    MulDist(p * q, carry, high * f);
    assert (p * q) * (carry + high * f) == (carry + high * f) * (p * q);
    MulDist(f, low, p * high);
    MulDist(q, f * low, f * (p * high));
    assert q * (f * (p * high)) == high * f * (p * q) by {
      assert f * (p * high) == p * (high * f) by { MulAssoc(f, p, high); MulAssoc(p, f, high); assert p * f == f * p; }
      MulAssoc(q, p, high * f);
      assert q * p == p * q;
    }
    assert q * (f * low) == f * low * q;
    assert q * (f * (low + p * high)) == f * (low + p * high) * q;
  }

  lemma ProductExact(v: nat, s: Count)
    requires v <= Pow(8)
    ensures v * s % Pow(WORDS) == v * s
  {
    hide Pow;
    PowNext(8);
    PowNext(9);
    PowNext(10);
    EightMoreBytes(v, s, Pow(9));
    MulMono(v, 0, s);
    SmallRemainder(v * s, Pow(WORDS));
  }
}
