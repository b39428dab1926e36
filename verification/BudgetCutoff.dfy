/**
  The connection budget of a bounty: a target t allows at most 2^257 / (t + 1)
  successful connections, and a counter of 64 bits saturates below its maximum.
  The cutoff is computed in several ways by the clients: with 32-bit limbs and a
  binary search on the desktop and on the phone, with a 352-bit integer in Swift,
  and with one big-integer comparison in Python. StopCount is what they all mean.
*/
module BudgetCutoff {
  import opened Limbs
  import opened Outcomes

  const MAX_COUNT: int := 0xFFFF_FFFF_FFFF_FFFF
  const FACTOR_WORDS: nat := 9
  const PRODUCT_WORDS: nat := 11
  const TARGET_BYTES: nat := 32

  type Byte = b: int | 0 <= b < 256
  type Count = n: int | 0 <= n <= 0xFFFF_FFFF_FFFF_FFFF

  /** Twice the size of the hash space: 2^257, the largest permitted product. */
  function TwiceSpace(): int {
    2 * Pow(8)
  }

  /** The first count that forbids another start. */
  function StopCount(target: nat): (stop: Count)
    ensures stop >= 1
  {
    var exact := TwiceSpace() / (target + 1) + 1;
    if exact <= MAX_COUNT then exact else MAX_COUNT
  }

  /** Is the exact product of a count and target + 1 above 2^257? */
  predicate Above(target: nat, successes: nat) {
    successes * (target + 1) > TwiceSpace()
  }

  /** Python: saturated, or the exact product is above 2^257. */
  predicate Exhausted(target: nat, successes: Count) {
    successes == MAX_COUNT || Above(target, successes)
  }

  /** The number written by big-endian bytes. */
  function BigEndian(bytes: seq<Byte>): nat {
    if bytes == [] then 0 else bytes[0] * Pow256(|bytes| - 1) + BigEndian(bytes[1..])
  }

  function Pow256(n: nat): (r: int)
    ensures r >= 1
  {
    if n == 0 then 1 else 256 * Pow256(n - 1)
  }

  // -----------------------------------------------------------------
  // The meaning of the cutoff
  // -----------------------------------------------------------------

  lemma ExceedsIff(target: nat, s: nat)
    ensures Above(target, s) <==> s >= TwiceSpace() / (target + 1) + 1
  {
    var d, p := target + 1, TwiceSpace();
    var q := p / d;
    assert p == d * q + p % d;
    if s >= q + 1 {
      MulStep(d, q, s);
      assert s * d == d * s;
    } else {
      assert d * (q - s) >= 0;
      assert s * d == d * s;
    }
  }

  /** The cached cutoff answers exactly the question that Python asks each time. */
  lemma StopDecidesExhausted(target: nat, successes: Count)
    ensures Exhausted(target, successes) <==> successes >= StopCount(target)
  {
    ExceedsIff(target, successes);
  }

  // -----------------------------------------------------------------
  // Desktop and phone: nine limbs for the factor, eleven for the product
  // -----------------------------------------------------------------

  lemma {:induction false} BigEndianBound(bytes: seq<Byte>)
    ensures BigEndian(bytes) < Pow256(|bytes|)
  {
    if bytes != [] {
      BigEndianBound(bytes[1..]);
      MulStep(Pow256(|bytes| - 1), bytes[0], 256);
      assert bytes[0] * Pow256(|bytes| - 1) == Pow256(|bytes| - 1) * bytes[0];
    }
  }

  /** Byte i of a little-endian number lies in limb i / 4, at byte i % 4. */
  lemma {:induction false} BytePlace(i: nat)
    ensures Pow256(i) == Pow(i / 4) * Pow256(i % 4)
  {
    if i < 4 {
      assert Pow(0) == 1;
    } else {
      BytePlace(i - 4);
      assert i / 4 == (i - 4) / 4 + 1;
      var p, r := Pow((i - 4) / 4), Pow256(i % 4);
      assert Pow256(i) == 256 * Pow256(i - 1);
      assert Pow256(i - 1) == 256 * Pow256(i - 2);
      assert Pow256(i - 2) == 256 * Pow256(i - 3);
      assert Pow(i / 4) == BASE * p;
      assert BASE * p * r == BASE * (p * r);
    }
  }

  lemma LowBytes()
    ensures Pow256(0) == 1 && Pow256(1) == 256 && Pow256(2) == 65536 && Pow256(3) == 16777216
  {
    assert Pow256(2) == 256 * Pow256(1);
    assert Pow256(3) == 256 * Pow256(2);
  }

  /** The limbs of target + 1, or nothing when the target is not 32 bytes. */
  method ParseBudgetFactor(bytes: seq<Byte>) returns (r: Option<seq<Word>>)
    ensures r.Some? <==> |bytes| == TARGET_BYTES
    ensures r.Some? ==> |r.value| == FACTOR_WORDS && Value(r.value) == BigEndian(bytes) + 1
  {
    if |bytes| != TARGET_BYTES { return None; }
    var factor := new Word[9](_ => 0);
    PackBytes(bytes, factor);
    TargetFits(bytes);
    Increment(factor);
    return Some(factor[..]);
  }

  /** Four bytes a limb. */
  lemma BytesFit(bytes: seq<Byte>, limbs: nat)
    requires |bytes| == 4 * limbs
    ensures BigEndian(bytes) < Pow(limbs)
  {
    BigEndianBound(bytes);
    BytePlace(|bytes|);
    assert Pow256(0) == 1;
    assert |bytes| / 4 == limbs && |bytes| % 4 == 0;
  }

  lemma TargetFits(bytes: seq<Byte>)
    requires |bytes| == TARGET_BYTES
    ensures BigEndian(bytes) + 1 <= Pow(8) < Pow(9)
  {
    hide Pow;
    hide Pow256;
    hide BigEndian;
    BytesFit(bytes, 8);
    PowNext(8);
  }

  lemma ByteFits(byte: Byte, i: nat)
    ensures byte * Pow256(i % 4) + Pow256(i % 4) <= Pow256(i % 4 + 1) <= BASE
  {
    LowBytes();
    assert Pow256(4) == 256 * Pow256(3);
    MulStep(Pow256(i % 4), byte, 256);
    assert byte * Pow256(i % 4) == Pow256(i % 4) * byte;
    assert i % 4 == 0 || i % 4 == 1 || i % 4 == 2 || i % 4 == 3;
  }

  /** The byte loop of both hexadecimal readers: fills zeroed limbs. */
  method PackBytes(bytes: seq<Byte>, factor: array<Word>)
    requires |bytes| == TARGET_BYTES && factor.Length >= 8
    requires forall k :: 0 <= k < factor.Length ==> factor[k] == 0
    modifies factor
    ensures Value(factor[..]) == BigEndian(bytes)
  {
    assert factor[..] == seq<Word>(factor.Length, _ => 0);
    ValueZeros(factor.Length);
    assert bytes[32..] == [];
    for i := 0 to 32
      invariant Value(factor[..]) == BigEndian(bytes[32 - i..])
      invariant i < 32 && i % 4 != 0 ==> factor[i / 4] < Pow256(i % 4)
      invariant forall k :: 0 <= k < factor.Length && i <= 4 * k ==> factor[k] == 0
    {
      var k, byte := i / 4, bytes[31 - i];
      ghost var was := factor[..];
      assert factor[k] < Pow256(i % 4) by { if i % 4 == 0 { assert i <= 4 * k; } }
      // The bits already in the limb are below this byte, so OR is addition.
      ByteFits(byte, i);
      factor[k] := factor[k] + byte * Pow256(i % 4);
      AddByte(was, factor[..], bytes, i);
    }
    assert bytes[0..] == bytes;
  }

  /** The carry loop: adds one to the whole number. */
  method Increment(factor: array<Word>)
    requires Value(factor[..]) + 1 < Pow(factor.Length)
    modifies factor
    ensures Value(factor[..]) == old(Value(factor[..])) + 1
  {
    ghost var parsed := factor[..];
    var carry: int := 1;
    assert parsed[..0] == [] && factor[..0] == [];
    for i := 0 to factor.Length
      invariant 0 <= carry <= 1
      invariant forall k :: i <= k < factor.Length ==> factor[k] == parsed[k]
      invariant Value(factor[..i]) + carry * Pow(i) == Value(parsed[..i]) + 1
    {
      ghost var before := factor[..i];
      carry := carry + factor[i];
      ghost var sum := carry;
      factor[i] := carry % BASE;
      carry := carry / BASE;
      assert before == factor[..][..i];
      CarryStep(before, factor[..], parsed, i, sum, carry);
      assert factor[..][..i + 1] == factor[..i + 1];
    }
    assert factor[..factor.Length] == factor[..] && parsed[..factor.Length] == parsed;
  }

  lemma AddByte(was: seq<Word>, now: seq<Word>, bytes: seq<Byte>, i: nat)
    requires |was| >= 8 && |bytes| == 32 && i < 32
    requires Value(was) == BigEndian(bytes[32 - i..])
    requires |now| == |was| && now == was[i / 4 := now[i / 4]]
    requires now[i / 4] == was[i / 4] + bytes[31 - i] * Pow256(i % 4)
    ensures Value(now) == BigEndian(bytes[31 - i..])
  {
    var byte: int, p, low := bytes[31 - i], Pow(i / 4), Pow256(i % 4);
    ValueUpdate(was, i / 4, now[i / 4]);
    BytePlace(i);
    assert p * (byte * low) == byte * Pow256(i) by { MulAssoc(byte, p, low); MulAssoc(p, byte, low); }
    var tail := bytes[31 - i..];
    assert tail[0] == byte && tail[1..] == bytes[32 - i..] && |tail| == i + 1;
    assert BigEndian(tail) == byte * Pow256(i) + BigEndian(bytes[32 - i..]);
    hide Pow;
    hide Pow256;
    hide BigEndian;
    hide Value;
  }

  lemma CarryStep(before: seq<Word>, now: seq<Word>, parsed: seq<Word>, i: nat, sum: int, carry: int)
    requires |now| == |parsed| && i < |now| && before == now[..i] && |before| == i
    requires 0 <= sum - parsed[i] <= 1
    requires Value(before) + (sum - parsed[i]) * Pow(i) == Value(parsed[..i]) + 1
    requires now[i] == sum % BASE && carry == sum / BASE
    ensures Value(now[..i + 1]) + carry * Pow(i + 1) == Value(parsed[..i + 1]) + 1
  {
    ValueSnoc(now, i);
    ValueSnoc(parsed, i);
    CarryArithmetic(Pow(i), sum, parsed[i], now[i], carry);
  }

  lemma CarryArithmetic(p: int, sum: int, old0: int, new0: int, carry: int)
    requires sum == carry * BASE + new0
    ensures (sum - old0) * p == p * new0 + carry * (BASE * p) - p * old0
  {
    MulDist(p, carry * BASE, new0);
    MulDist(p, sum, -old0);
    assert p * -old0 == -(p * old0);
    MulAssoc(carry, BASE, p);
    assert p * (carry * BASE) == carry * BASE * p;
    assert (sum - old0) * p == p * (sum - old0);
  }

  lemma WordProduct(x: int, y: int)
    requires 0 <= x <= 0xFFFF_FFFF && 0 <= y <= 0xFFFF_FFFF
    ensures 0 <= x * y <= 0xFFFF_FFFE_0000_0001
  {
    MulMono(y, 0, x);
    MulMono(y, x, 0xFFFF_FFFF);
    assert y * x == x * y;
  }

  /** One limb product: no 64-bit overflow, and the carry fits a limb again. */
  lemma PartFits(a: Word, b: Word, c: Word, d: Word)
    ensures 0 <= a * b + c + d <= MAX_COUNT
  {
    WordProduct(a, b);
  }

  /**
    The exact question of the gate: is successes * factor above 2^257?
    The factor is the one of a 256-bit target, so the product fits eleven limbs.
  */
  method BudgetProductExceeds(factor: seq<Word>, ghost target: nat, successes: Count) returns (exceeds: bool)
    requires |factor| == FACTOR_WORDS && Value(factor) == target + 1
    ensures exceeds <==> Above(target, successes)
  {
    var multiplier: seq<Word> := [successes % BASE, successes / BASE];
    HalvesValue(multiplier, successes);
    var product := new Word[11](_ => 0);
    assert product[..] == seq<Word>(11, _ => 0);
    ValueZeros(11);
    assert factor[..0] == [];
    for i := 0 to 9
      invariant Value(product[..]) == Value(factor[..i]) * successes
    {
      ProductTotal(factor, i, successes);
      NoCarryLeft(factor, i, successes);
      MultiplyAdd(product, factor[i], multiplier, i);
    }
    assert factor[..9] == factor;
    assert Value(factor) * successes == successes * (target + 1);
    exceeds := ComparePast(product[..]);
  }

  lemma HalvesValue(m: seq<Word>, s: Count)
    requires |m| == 2 && m[0] == s % BASE && m[1] == s / BASE
    ensures Value(m) == s
  {
    assert m[1..] == [m[1]] && m[1..][1..] == [];
    assert Value(m[1..]) == m[1];
  }

  /** The number in the limbs together with a carry that belongs at limb k. */
  ghost function WithCarry(product: seq<Word>, carry: Word, k: nat): int {
    Value(product) + carry * Pow(k)
  }

  /** What one limb of the factor contributes to the product. */
  ghost function Row(f: Word, multiplier: seq<Word>, i: nat): int {
    f * Value(multiplier) * Pow(i)
  }

  lemma NoCarry(product: seq<Word>, multiplier: seq<Word>, f: Word, i: nat)
    ensures WithCarry(product, 0, i) == Value(product) + Row(f, multiplier[..0], i)
  {
    assert multiplier[..0] == [];
    assert f * Value(multiplier[..0]) == 0;
  }

  /** One row of the product: adds f * multiplier at limb i, carries included. */
  method MultiplyAdd(product: array<Word>, f: Word, multiplier: seq<Word>, i: nat)
    requires product.Length == PRODUCT_WORDS && |multiplier| == 2 && i < FACTOR_WORDS
    requires Value(product[..]) + Row(f, multiplier, i) < Pow(11)
    modifies product
    ensures Value(product[..]) == old(Value(product[..])) + Row(f, multiplier, i)
  {
    ghost var base := Value(product[..]);
    var carry: Word := 0;
    NoCarry(product[..], multiplier, f, i);
    hide Row;
    hide WithCarry;
    hide Value;
    hide Pow;
    for j := 0 to 2
      invariant WithCarry(product[..], carry, i + j) == base + Row(f, multiplier[..j], i)
    {
      PartFits(f, multiplier[j], product[i + j], carry);
      var part := f * multiplier[j] + product[i + j] + carry;
      ghost var was, oldCarry: Word := product[..], carry;
      product[i + j] := part % BASE;
      carry := part / BASE;
      assert product[..] == was[i + j := product[i + j]];
      MultiplyStep(was, product[..], f, multiplier, i, j, oldCarry, carry, base);
    }
    assert multiplier[..2] == multiplier;
    Ripple(product, i + 2, carry);
  }

  /** Carries into the limbs from k up until nothing is left to carry. */
  method Ripple(product: array<Word>, start: nat, first: Word)
    requires product.Length == PRODUCT_WORDS && start <= 11
    requires WithCarry(product[..], first, start) < Pow(11)
    modifies product
    ensures Value(product[..]) == old(WithCarry(product[..], first, start))
  {
    hide WithCarry;
    hide Value;
    hide Pow;
    ghost var total := WithCarry(product[..], first, start);
    var carry: Word, k: nat := first, start;
    while carry != 0 && k < 11
      invariant start <= k <= 11
      invariant WithCarry(product[..], carry, k) == total
    {
      ghost var was, oldCarry: Word := product[..], carry;
      var sum := carry + product[k];
      product[k] := sum % BASE;
      carry := sum / BASE;
      assert product[..] == was[k := product[k]];
      RippleStep(was, product[..], k, oldCarry, carry);
      k := k + 1;
    }
    CarrySpent(product[..], carry, k);
  }

  lemma CarrySpent(product: seq<Word>, carry: Word, k: nat)
    requires WithCarry(product, carry, k) < Pow(11)
    requires carry == 0 || k == 11
    ensures WithCarry(product, carry, k) == Value(product)
  {
    hide Pow;
    hide Value;
    MulMono(Pow(k), if carry == 0 then 0 else 1, carry);
  }

  /** The comparison loop: from the top limb down, against limb 8 equal to 2. */
  method ComparePast(product: seq<Word>) returns (greater: bool)
    requires |product| == PRODUCT_WORDS
    ensures greater <==> Value(product) > TwiceSpace()
  {
    ghost var limit: seq<Word> := seq(11, k => if k == 8 then 2 else 0);
    LimitValue(limit);
    for i := 11 downto 0
      invariant product[i..] == limit[i..]
    {
      var bound: Word := if i == 8 then 2 else 0;
      if product[i] != bound {
        if product[i] < bound { ValueCompare(product, limit, i); } else { ValueCompare(limit, product, i); }
        return product[i] > bound;
      }
      assert product[i..] == [product[i]] + product[i + 1..] && limit[i..] == [limit[i]] + limit[i + 1..];
    }
    assert product[0..] == product && limit[0..] == limit;
    return false;
  }

  lemma LimitValue(limit: seq<Word>)
    requires |limit| == 11 && forall k :: 0 <= k < 11 ==> limit[k] == if k == 8 then 2 else 0
    ensures Value(limit) == TwiceSpace()
  {
    var zeros := seq<Word>(11, _ => 0);
    ValueZeros(11);
    assert limit == zeros[8 := 2];
    ValueUpdate(zeros, 8, 2);
  }

  lemma MultiplyStep(was: seq<Word>, now: seq<Word>, f: Word, m: seq<Word>, i: nat, j: nat, oldCarry: Word, carry: Word,
                     base: int)
    requires |was| == |now| == 11 && |m| == 2 && j < 2 && i + j < 11
    requires now == was[i + j := now[i + j]]
    requires f * m[j] + was[i + j] + oldCarry == carry * BASE + now[i + j]
    requires WithCarry(was, oldCarry, i + j) == base + Row(f, m[..j], i)
    ensures WithCarry(now, carry, i + j + 1) == base + Row(f, m[..j + 1], i)
  {
    ValueUpdate(was, i + j, now[i + j]);
    ValueSnoc(m, j);
    PowAdd(i, j);
    MultiplyArithmetic(Pow(i), Pow(j), f, m[j], was[i + j], now[i + j], oldCarry, carry, Value(m[..j]));
  }

  lemma MultiplyArithmetic(q: int, r: int, f: int, mj: int, w: int, n: int, c0: int, c1: int, low: int)
    requires f * mj + w + c0 == c1 * BASE + n
    ensures q * r * (n - w) + c1 * (BASE * (q * r)) - c0 * (q * r) == f * (low + r * mj) * q - f * low * q
  {
    var p := q * r;
    assert c1 * (BASE * p) == p * (c1 * BASE);
    MulDist(p, n - w, c1 * BASE);
    MulDist(p, n - w + c1 * BASE, -c0);
    assert p * -c0 == -(c0 * p);
    assert n - w + c1 * BASE - c0 == f * mj;
    MulDist(f, low, r * mj);
    MulDist(q, f * low, f * (r * mj));
    assert q * (f * low) == f * low * q;
    assert q * (f * (r * mj)) == q * r * (f * mj) by {
      MulAssoc(f, r, mj);
      MulAssoc(r, f, mj);
      assert f * r == r * f;
      MulAssoc(q, r, f * mj);
    }
    assert f * (low + r * mj) * q == q * (f * (low + r * mj));
  }

  lemma RippleStep(was: seq<Word>, now: seq<Word>, k: nat, oldCarry: Word, carry: Word)
    requires |was| == |now| && k < |was| && now == was[k := now[k]]
    requires was[k] + oldCarry == carry * BASE + now[k]
    ensures WithCarry(now, carry, k + 1) == WithCarry(was, oldCarry, k)
  {
    ValueUpdate(was, k, now[k]);
    var p, w: int, n: int, c0: int, c1: int := Pow(k), was[k], now[k], oldCarry, carry;
    assert c1 * (BASE * p) == p * (c1 * BASE);
    MulDist(p, n - w, c1 * BASE);
    assert n - w + c1 * BASE == c0;
    assert p * c0 == c0 * p;
  }

  lemma ProductTotal(factor: seq<Word>, i: nat, s: Count)
    requires i < |factor|
    ensures Value(factor[..i]) * s + factor[i] * s * Pow(i) == Value(factor[..i + 1]) * s
  {
    ValueSnoc(factor, i);
    assert (Value(factor[..i]) + Pow(i) * factor[i]) * s == Value(factor[..i]) * s + Pow(i) * factor[i] * s;
    assert Pow(i) * factor[i] * s == factor[i] * s * Pow(i);
  }

  /** A partial product never needs a twelfth limb. */
  lemma NoCarryLeft(factor: seq<Word>, i: nat, s: Count)
    requires |factor| == 9 && i < 9
    ensures Value(factor[..i + 1]) * s < Pow(11)
  {
    hide Pow;
    hide Value;
    HeadBelow(factor, i + 1);
    PowNext(9);
    PowNext(10);
    EightMoreBytes(Value(factor[..i + 1]), s, Pow(9));
  }

  lemma HeadBelow(ws: seq<Word>, n: nat)
    requires n <= |ws|
    ensures Value(ws[..n]) < Pow(|ws|)
  {
    assert ws == ws[..n] + ws[n..];
    ValueAppend(ws[..n], ws[n..]);
    ValueBound(ws);
    MulMono(Pow(n), 0, Value(ws[n..]));
  }

  lemma EightMoreBytes(v: int, c: int, p: int)
    requires 0 <= v < p && 0 <= c <= MAX_COUNT
    ensures v * c < BASE * (BASE * p)
  {
    MulMono(v, c, MAX_COUNT);
    assert v * MAX_COUNT < BASE * BASE * p;
  }

  /** First blocked count by bisection over the whole 64-bit range. */
  method ConnectionBudgetStopCount(bytes: seq<Byte>) returns (r: Option<Count>)
    ensures r.Some? <==> |bytes| == TARGET_BYTES
    ensures r.Some? ==> r.value == StopCount(BigEndian(bytes))
  {
    var parsed := ParseBudgetFactor(bytes);
    if parsed.None? { return None; }
    var factor, target := parsed.value, BigEndian(bytes);
    var allowed: Count, blocked: Count := 0, MAX_COUNT;
    while blocked - allowed > 1
      invariant allowed < blocked
      invariant !Above(target, allowed)
      invariant blocked == MAX_COUNT || Above(target, blocked)
    {
      var middle := allowed + (blocked - allowed) / 2;
      var exceeds := BudgetProductExceeds(factor, target, middle);
      if exceeds { blocked := middle; } else { allowed := middle; }
    }
    ExceedsIff(target, allowed);
    ExceedsIff(target, blocked);
    return Some(blocked);
  }

  method ConnectionBudgetExhausted(bytes: seq<Byte>, successes: Count) returns (r: Option<bool>)
    ensures r.Some? ==> r.value == Exhausted(BigEndian(bytes), successes)
    ensures r.None? <==> |bytes| != TARGET_BYTES && successes != MAX_COUNT
  {
    if successes == MAX_COUNT { return Some(true); }
    var parsed := ParseBudgetFactor(bytes);
    if parsed.None? { return None; }
    var exceeds := BudgetProductExceeds(parsed.value, BigEndian(bytes), successes);
    return Some(exceeds);
  }

  // -----------------------------------------------------------------
  // The limit in digits
  // -----------------------------------------------------------------

  /** Theorem: the largest permitted product is 2^257. */
  lemma SpaceIs()
    ensures TwiceSpace() == 0x2_00000000_00000000_00000000_00000000_00000000_00000000_00000000_00000000
  {
    assert Pow(2) == 0x1_00000000_00000000 && Pow(4) == Pow(2) * Pow(2) by { PowAdd(2, 2); }
    assert Pow(8) == Pow(4) * Pow(4) by { PowAdd(4, 4); }
  }
}
