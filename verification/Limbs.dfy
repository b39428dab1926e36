/** Little-endian multi-word arithmetic: 32-bit words and what they are worth. */
module Limbs {
  const BASE: int := 0x1_0000_0000

  type Word = w: int | 0 <= w < 0x1_0000_0000

  /** BASE to the n-th power. */
  function Pow(n: nat): (r: int)
    ensures r >= 1
  {
    if n == 0 then 1 else BASE * Pow(n - 1)
  }

  /** The number that a sequence of words stands for, least significant word first. */
  function Value(ws: seq<Word>): nat
  {
    if ws == [] then 0 else ws[0] + BASE * Value(ws[1..])
  }

  lemma PowZero()
    ensures Pow(0) == 1
  {
  }

  /** One more word. */
  lemma PowNext(n: nat)
    ensures Pow(n + 1) == BASE * Pow(n)
  {
  }

  lemma {:induction false} PowAdd(a: nat, b: nat)
    ensures Pow(a + b) == Pow(a) * Pow(b)
  {
    if a != 0 {
      PowAdd(a - 1, b);
      assert BASE * Pow(a - 1) * Pow(b) == BASE * (Pow(a - 1) * Pow(b));
    }
  }

  /** n words never reach the n-th power of the base. */
  lemma {:induction false} ValueBound(ws: seq<Word>)
    ensures Value(ws) < Pow(|ws|)
  {
    if ws != [] {
      ValueBound(ws[1..]);
      assert Value(ws[1..]) + 1 <= Pow(|ws| - 1);
    }
  }

  lemma {:induction false} ValueAppend(a: seq<Word>, b: seq<Word>)
    ensures Value(a + b) == Value(a) + Pow(|a|) * Value(b)
  {
    if a == [] {
      assert a + b == b;
    } else {
      assert (a + b)[0] == a[0] && (a + b)[1..] == a[1..] + b;
      ValueAppend(a[1..], b);
      assert BASE * (Pow(|a| - 1) * Value(b)) == BASE * Pow(|a| - 1) * Value(b);
    }
  }

  /** Taking one more word adds that word at its weight. */
  lemma ValueSnoc(ws: seq<Word>, i: nat)
    requires i < |ws|
    ensures Value(ws[..i + 1]) == Value(ws[..i]) + Pow(i) * ws[i]
  {
    assert ws[..i + 1] == ws[..i] + [ws[i]];
    ValueAppend(ws[..i], [ws[i]]);
    assert Value([ws[i]]) == ws[i];
  }

  /** Replacing one word changes the value by the difference at that weight. */
  lemma ValueUpdate(ws: seq<Word>, i: nat, w: Word)
    requires i < |ws|
    ensures Value(ws[i := w]) == Value(ws) + Pow(i) * (w - ws[i])
  {
    var tail := ws[i + 1..];
    assert ws == ws[..i] + ([ws[i]] + tail);
    assert ws[i := w] == ws[..i] + ([w] + tail);
    ValueAppend(ws[..i], [ws[i]] + tail);
    ValueAppend(ws[..i], [w] + tail);
    ValueAppend([ws[i]], tail);
    ValueAppend([w], tail);
    assert Value([ws[i]]) == ws[i] && Value([w]) == w;
    assert Pow(i) * (w + Pow(1) * Value(tail)) - Pow(i) * (ws[i] + Pow(1) * Value(tail)) == Pow(i) * (w - ws[i]);
  }

  lemma {:induction false} ValueZeros(n: nat)
    ensures Value(seq(n, _ => 0)) == 0
  {
    if n != 0 {
      ValueZeros(n - 1);
      assert seq<Word>(n, _ => 0)[1..] == seq<Word>(n - 1, _ => 0);
    }
  }

  lemma MulDist(p: int, x: int, y: int)
    ensures p * (x + y) == p * x + p * y
  {
  }

  lemma MulAssoc(x: int, y: int, z: int)
    ensures x * y * z == x * (y * z)
  {
  }

  lemma MulMono(p: int, x: int, y: int)
    requires p >= 0 && x <= y
    ensures p * x <= p * y
  {
    assert p * (y - x) >= 0;
  }

  lemma MulStep(p: int, x: int, y: int)
    requires p >= 0 && x < y
    ensures p * x + p <= p * y
  {
    MulMono(p, x + 1, y);
    MulDist(p, x, 1);
  }

  /** Words above the highest difference decide the order. */
  lemma ValueCompare(a: seq<Word>, b: seq<Word>, i: nat)
    requires |a| == |b| && i < |a| && a[i + 1..] == b[i + 1..] && a[i] < b[i]
    ensures Value(a) < Value(b)
  {
    var tail := a[i + 1..];
    assert Value(a) == Value(a[..i + 1]) + Pow(i + 1) * Value(tail) by {
      assert a == a[..i + 1] + tail;
      ValueAppend(a[..i + 1], tail);
    }
    assert Value(b) == Value(b[..i + 1]) + Pow(i + 1) * Value(tail) by {
      assert b == b[..i + 1] + tail;
      ValueAppend(b[..i + 1], tail);
    }
    ValueSnoc(a, i);
    ValueSnoc(b, i);
    ValueBound(a[..i]);
    MulStep(Pow(i), a[i], b[i]);
  }
}
