/**
  The weighted rotation over the addresses of a domain. Each turn every eligible
  address earns its share of one start, the one with the most credit is picked
  and pays one. Doubles are modelled as reals.
*/
module EndpointRotation {
  import opened Outcomes

  const EXPLORATION: real := 0.01

  /** The credits of the addresses, and where the next turn starts to look. */
  datatype Wheel = Wheel(credits: seq<real>, cursor: nat)

  // -----------------------------------------------------------------
  // Sums over the eligible addresses
  // -----------------------------------------------------------------

  function Total(xs: seq<real>, on: seq<bool>): real
    requires |xs| == |on|
  {
    if xs == [] then 0.0
    else Total(xs[..|xs| - 1], on[..|xs| - 1]) + if on[|xs| - 1] then xs[|xs| - 1] else 0.0
  }

  function Members(on: seq<bool>): nat {
    if on == [] then 0 else Members(on[..|on| - 1]) + if on[|on| - 1] then 1 else 0
  }

  lemma Distribute(a: real, b: real, c: real)
    ensures a * (b + c) == a * b + a * c
  {
  }

  /** A sum of the form a + c * x over the eligible addresses. */
  lemma {:induction false} TotalAffine(xs: seq<real>, ys: seq<real>, on: seq<bool>, a: real, c: real)
    requires |xs| == |ys| == |on|
    requires forall i :: 0 <= i < |on| && on[i] ==> ys[i] == a + c * xs[i]
    ensures Total(ys, on) == a * Members(on) as real + c * Total(xs, on)
  {
    if on != [] {
      var n := |on| - 1;
      TotalAffine(xs[..n], ys[..n], on[..n], a, c);
      var x := if on[n] then xs[n] else 0.0;
      var m := Members(on[..n]) as real;
      Distribute(c, Total(xs[..n], on[..n]), x);
      Distribute(a, m, if on[n] then 1.0 else 0.0);
    }
  }

  lemma {:induction false} TotalSum(xs: seq<real>, ys: seq<real>, zs: seq<real>, on: seq<bool>)
    requires |xs| == |ys| == |zs| == |on|
    requires forall i :: 0 <= i < |on| && on[i] ==> zs[i] == xs[i] + ys[i]
    ensures Total(zs, on) == Total(xs, on) + Total(ys, on)
  {
    if on != [] {
      var n := |on| - 1;
      TotalSum(xs[..n], ys[..n], zs[..n], on[..n]);
    }
  }

  lemma {:induction false} TotalUpdate(xs: seq<real>, on: seq<bool>, k: nat, x: real)
    requires |xs| == |on| && k < |on| && on[k]
    ensures Total(xs[k := x], on) == Total(xs, on) - xs[k] + x
  {
    var n := |on| - 1;
    var ys := xs[k := x];
    if k == n {
      assert ys[..n] == xs[..n];
    } else {
      assert ys[..n] == xs[..n][k := x];
      TotalUpdate(xs[..n], on[..n], k, x);
    }
  }

  /** A sum of values that are all at least low is at least low times their number; a strict member makes it strict. */
  lemma {:induction false} TotalLow(xs: seq<real>, on: seq<bool>, low: real)
    requires |xs| == |on| && forall i :: 0 <= i < |on| && on[i] ==> xs[i] >= low
    ensures Total(xs, on) >= low * Members(on) as real
  {
    if on != [] {
      var n := |on| - 1;
      TotalLow(xs[..n], on[..n], low);
      Distribute(low, Members(on[..n]) as real, if on[n] then 1.0 else 0.0);
    }
  }

  lemma {:induction false} TotalHigh(xs: seq<real>, on: seq<bool>, high: real)
    requires |xs| == |on| && forall i :: 0 <= i < |on| && on[i] ==> xs[i] <= high
    ensures Total(xs, on) <= high * Members(on) as real
  {
    if on != [] {
      var n := |on| - 1;
      TotalHigh(xs[..n], on[..n], high);
      Distribute(high, Members(on[..n]) as real, if on[n] then 1.0 else 0.0);
    }
  }

  lemma {:induction false} MembersPositive(on: seq<bool>, k: nat)
    requires k < |on| && on[k]
    ensures Members(on) >= 1
  {
    if k < |on| - 1 { MembersPositive(on[..|on| - 1], k); }
  }

  /** Raising the values above -1 strictly, apart from one, bounds that one from above. */
  lemma {:induction false} TotalAboveMinusOne(xs: seq<real>, on: seq<bool>, k: nat)
    requires |xs| == |on| && k < |on| && on[k] && Members(on) >= 2
    requires forall i :: 0 <= i < |on| && on[i] ==> xs[i] > -1.0
    ensures Total(xs, on) > xs[k] - (Members(on) - 1) as real
  {
    var n := |on| - 1;
    if k == n {
      StrictlyAbove(xs[..n], on[..n]);
    } else if on[n] {
      if Members(on[..n]) >= 2 { TotalAboveMinusOne(xs[..n], on[..n], k); }
      else { SingleTotal(xs[..n], on[..n], k); }
    } else {
      TotalAboveMinusOne(xs[..n], on[..n], k);
    }
  }

  lemma {:induction false} StrictlyAbove(xs: seq<real>, on: seq<bool>)
    requires |xs| == |on| && Members(on) >= 1
    requires forall i :: 0 <= i < |on| && on[i] ==> xs[i] > -1.0
    ensures Total(xs, on) > -(Members(on) as real)
  {
    var n := |on| - 1;
    if Members(on[..n]) >= 1 { StrictlyAbove(xs[..n], on[..n]); }
    else { NobodyTotal(xs[..n], on[..n]); }
  }

  lemma {:induction false} NobodyTotal(xs: seq<real>, on: seq<bool>)
    requires |xs| == |on| && Members(on) == 0
    ensures Total(xs, on) == 0.0
  {
    if on != [] { NobodyTotal(xs[..|on| - 1], on[..|on| - 1]); }
  }

  lemma {:induction false} SingleTotal(xs: seq<real>, on: seq<bool>, k: nat)
    requires |xs| == |on| && k < |on| && on[k] && Members(on) == 1
    ensures Total(xs, on) == xs[k]
  {
    var n := |on| - 1;
    if k == n { NobodyTotal(xs[..n], on[..n]); }
    else {
      MembersPositive(on[..n], k);
      SingleTotal(xs[..n], on[..n], k);
    }
  }

  // -----------------------------------------------------------------
  // One turn
  // -----------------------------------------------------------------

  /** The measured rates: positive for every eligible address, and there is one. */
  predicate GoodRates(on: seq<bool>, rates: seq<real>) {
    |rates| == |on| && (exists i :: 0 <= i < |on| && on[i]) &&
    forall i :: 0 <= i < |on| && on[i] ==> rates[i] > 0.0
  }

  lemma RatesTotal(on: seq<bool>, rates: seq<real>)
    requires GoodRates(on, rates)
    ensures Members(on) >= 1 && Total(rates, on) > 0.0
  {
    var k :| 0 <= k < |on| && on[k];
    MembersPositive(on, k);
    TotalPositive(rates, on, k);
  }

  lemma {:induction false} TotalPositive(xs: seq<real>, on: seq<bool>, k: nat)
    requires |xs| == |on| && k < |on| && on[k]
    requires forall i :: 0 <= i < |on| && on[i] ==> xs[i] > 0.0
    ensures Total(xs, on) >= xs[k]
  {
    var n := |on| - 1;
    if k < n { TotalPositive(xs[..n], on[..n], k); }
    else { TotalLow(xs[..n], on[..n], 0.0); }
  }

  /** The part of a start that is shared out evenly. */
  function Explore(n: nat): real
    requires n >= 1
  {
    EXPLORATION / n as real
  }

  /** What an address earns in a turn: a little for exploration, the rest by its measured rate. */
  function Share(on: seq<bool>, rates: seq<real>, i: nat): (share: real)
    requires GoodRates(on, rates) && i < |on|
  {
    RatesTotal(on, rates);
    if on[i] then Explore(Members(on)) + (1.0 - EXPLORATION) * rates[i] / Total(rates, on) else 0.0
  }

  function Shares(on: seq<bool>, rates: seq<real>): seq<real>
    requires GoodRates(on, rates)
  {
    seq(|on|, i requires 0 <= i < |on| => Share(on, rates, i))
  }

  function Credited(w: Wheel, on: seq<bool>, rates: seq<real>): seq<real>
    requires GoodRates(on, rates) && |w.credits| == |on|
  {
    seq(|on|, i requires 0 <= i < |on| => w.credits[i] + Share(on, rates, i))
  }

  /** How far an index lies behind the cursor, going round. */
  function Ahead(cursor: nat, n: nat, i: nat): nat
    requires i < n
  {
    (i + n - cursor % n) % n
  }

  /** The pick: most credit, and among equals the first from the cursor on. */
  predicate Leads(c: seq<real>, on: seq<bool>, cursor: nat, pick: nat) {
    |c| == |on| && pick < |on| && on[pick] &&
    forall i :: 0 <= i < |on| && on[i] ==>
      c[i] <= c[pick] && (c[i] == c[pick] ==> Ahead(cursor, |on|, pick) <= Ahead(cursor, |on|, i))
  }

  ghost predicate Turn(w: Wheel, on: seq<bool>, rates: seq<real>, pick: nat, v: Wheel) {
    GoodRates(on, rates) && |w.credits| == |on| && Leads(Credited(w, on, rates), on, w.cursor, pick) &&
    v.credits == Credited(w, on, rates)[pick := Credited(w, on, rates)[pick] - 1.0] && v.cursor == (pick + 1) % |on|
  }

  /** A turn has one outcome. */
  lemma TurnUnique(w: Wheel, on: seq<bool>, rates: seq<real>, pick: nat, v: Wheel, pick': nat, v': Wheel)
    requires Turn(w, on, rates, pick, v) && Turn(w, on, rates, pick', v')
    ensures pick == pick' && v == v'
  {
    var c, n := Credited(w, on, rates), |on|;
    assert c[pick] == c[pick'] && Ahead(w.cursor, n, pick) == Ahead(w.cursor, n, pick');
    AheadInjective(w.cursor, n, pick, pick');
  }

  lemma AheadInjective(cursor: nat, n: nat, i: nat, k: nat)
    requires i < n && k < n && Ahead(cursor, n, i) == Ahead(cursor, n, k)
    ensures i == k
  {
    var c := cursor % n;
    AheadBy(cursor, n, i);
    AheadBy(cursor, n, k);
  }

  lemma AheadBy(cursor: nat, n: nat, i: nat)
    requires i < n
    ensures Ahead(cursor, n, i) == if i >= cursor % n then i - cursor % n else i + n - cursor % n
  {
    var c := cursor % n;
    if i >= c { assert (i - c + n) % n == i - c by { Wrap(i - c, n); } }
    else { Small(i + n - c, n); }
  }

  lemma Wrap(x: nat, n: nat)
    requires x < n
    ensures (x + n) % n == x
  {
    assert (x + n) / n == 1;
  }

  lemma Small(x: nat, n: nat)
    requires x < n
    ensures x % n == x
  {
  }

  lemma DivMul(x: real, y: real)
    requires y != 0.0
    ensures (x / y) * y == x
  {
  }

  lemma ShareForm(on: seq<bool>, rates: seq<real>, i: nat, a: real, c: real)
    requires GoodRates(on, rates) && i < |on| && on[i]
    requires Members(on) >= 1 && Total(rates, on) > 0.0
    requires a == Explore(Members(on)) && c == (1.0 - EXPLORATION) / Total(rates, on)
    ensures Share(on, rates, i) == a + c * rates[i] && c * rates[i] > 0.0
  {
    hide Total;
    hide Members;
    hide Explore;
    Rearrange(1.0 - EXPLORATION, rates[i], Total(rates, on));
    PositiveQuotient(1.0 - EXPLORATION, Total(rates, on));
    Nonnegative(c, rates[i]);
  }

  lemma PositiveQuotient(x: real, y: real)
    requires x > 0.0 && y > 0.0
    ensures x / y > 0.0
  {
  }

  /** The shares of a turn add up to one start, and none is below the exploration share. */
  lemma SharesSumToOne(on: seq<bool>, rates: seq<real>)
    requires GoodRates(on, rates)
    ensures Total(Shares(on, rates), on) == 1.0
    ensures Members(on) >= 1 && forall i :: 0 <= i < |on| && on[i] ==>
      Shares(on, rates)[i] >= Explore(Members(on)) > 0.0
  {
    hide Total;
    hide Members;
    hide Explore;
    hide Share;
    hide Shares;
    RatesTotal(on, rates);
    ExploreAll(Members(on));
    var a, c := Explore(Members(on)), (1.0 - EXPLORATION) / Total(rates, on);
    SharesForm(on, rates, a, c);
    DivMul(1.0 - EXPLORATION, Total(rates, on));
    SharesTotal(on, rates, a, c);
  }

  lemma SharesTotal(on: seq<bool>, rates: seq<real>, a: real, c: real)
    requires GoodRates(on, rates)
    requires forall i :: 0 <= i < |on| && on[i] ==> Shares(on, rates)[i] == a + c * rates[i]
    requires a * Members(on) as real == EXPLORATION && c * Total(rates, on) == 1.0 - EXPLORATION
    ensures Total(Shares(on, rates), on) == 1.0
  {
    hide Total;
    hide Members;
    hide Share;
    TotalAffine(rates, Shares(on, rates), on, a, c);
  }

  lemma SharesForm(on: seq<bool>, rates: seq<real>, a: real, c: real)
    requires GoodRates(on, rates) && Members(on) >= 1 && Total(rates, on) > 0.0
    requires a == Explore(Members(on)) > 0.0 && c == (1.0 - EXPLORATION) / Total(rates, on)
    ensures forall i :: 0 <= i < |on| && on[i] ==> Shares(on, rates)[i] == a + c * rates[i]
    ensures forall i :: 0 <= i < |on| && on[i] ==> Shares(on, rates)[i] >= a
  {
    hide Total;
    hide Members;
    hide Explore;
    hide Share;
    forall i | 0 <= i < |on| && on[i]
      ensures Shares(on, rates)[i] == a + c * rates[i] && Shares(on, rates)[i] >= a
    {
      ShareForm(on, rates, i, a, c);
    }
  }

  lemma ExploreAll(n: nat)
    requires n >= 1
    ensures Explore(n) * n as real == EXPLORATION && Explore(n) > 0.0
  {
    DivMul(EXPLORATION, n as real);
    PositiveQuotient(EXPLORATION, n as real);
  }

  lemma Rearrange(a: real, x: real, t: real)
    requires t > 0.0
    ensures a * x / t == (a / t) * x
  {
    var q := a / t;
    assert q * t == a;
    assert a * x == (q * t) * x == (q * x) * t;
  }

  lemma Nonnegative(c: real, x: real)
    requires c > 0.0 && x > 0.0
    ensures c * x > 0.0
  {
  }

  // -----------------------------------------------------------------
  // What every turn keeps
  // -----------------------------------------------------------------

  /** The credits of the eligible addresses sum to zero, and nobody owes a whole start. */
  ghost predicate Balanced(w: Wheel, on: seq<bool>) {
    |w.credits| == |on| && Total(w.credits, on) == 0.0 && forall i :: 0 <= i < |on| && on[i] ==> w.credits[i] > -1.0
  }

  lemma TurnCredits(w: Wheel, on: seq<bool>, rates: seq<real>, pick: nat, v: Wheel)
    requires Turn(w, on, rates, pick, v)
    ensures |v.credits| == |on| && forall i :: 0 <= i < |on| ==>
      v.credits[i] == w.credits[i] + Shares(on, rates)[i] - if i == pick then 1.0 else 0.0
  {
  }

  lemma CreditedTotal(w: Wheel, on: seq<bool>, rates: seq<real>)
    requires GoodRates(on, rates) && |w.credits| == |on|
    ensures Total(Credited(w, on, rates), on) == Total(w.credits, on) + 1.0
  {
    SharesSumToOne(on, rates);
    TotalSum(w.credits, Shares(on, rates), Credited(w, on, rates), on);
  }

  /** Theorem: a turn conserves the sum of the credits, and leaves nobody a whole start in debt. */
  lemma TurnBalanced(w: Wheel, on: seq<bool>, rates: seq<real>, pick: nat, v: Wheel)
    requires Turn(w, on, rates, pick, v)
    ensures Total(v.credits, on) == Total(w.credits, on)
    ensures Balanced(w, on) ==> Balanced(v, on)
  {
    hide Total;
    hide Share;
    hide Members;
    hide Explore;
    var c := Credited(w, on, rates);
    CreditedTotal(w, on, rates);
    TotalUpdate(c, on, pick, c[pick] - 1.0);
    if Balanced(w, on) {
      LeaderPositive(c, on, pick);
      SharesSumToOne(on, rates);
      forall i | 0 <= i < |on| && on[i] ensures v.credits[i] > -1.0 {
        assert c[i] == w.credits[i] + Shares(on, rates)[i];
      }
    }
  }

  /** The largest of values whose sum is positive is positive. */
  lemma LeaderPositive(c: seq<real>, on: seq<bool>, pick: nat)
    requires |c| == |on| && pick < |on| && on[pick] && Total(c, on) > 0.0
    requires forall i :: 0 <= i < |on| && on[i] ==> c[i] <= c[pick]
    ensures c[pick] > 0.0
  {
    hide Total;
    hide Members;
    TotalHigh(c, on, c[pick]);
    if c[pick] <= 0.0 { NotPositive(c[pick], Members(on) as real); }
  }

  lemma NotPositive(x: real, m: real)
    requires x <= 0.0 && m >= 0.0
    ensures x * m <= 0.0
  {
  }

  /** With two addresses or more, nobody is owed n - 1 starts. */
  lemma BalancedBounded(w: Wheel, on: seq<bool>, i: nat)
    requires Balanced(w, on) && i < |on| && on[i]
    ensures -1.0 < w.credits[i] <= (Members(on) - 1) as real
    ensures Members(on) >= 2 ==> w.credits[i] < (Members(on) - 1) as real
  {
    MembersPositive(on, i);
    if Members(on) >= 2 { TotalAboveMinusOne(w.credits, on, i); }
    else { SingleTotal(w.credits, on, i); }
  }

  // -----------------------------------------------------------------
  // Runs
  // -----------------------------------------------------------------

  ghost predicate TurnAt(ws: seq<Wheel>, on: seq<bool>, rates: seq<seq<real>>, picks: seq<nat>, t: nat)
    requires t < |picks| == |rates| && |ws| == |picks| + 1
  {
    Turn(ws[t], on, rates[t], picks[t], ws[t + 1])
  }

  /** Any number of turns over a fixed set of eligible addresses, from zero credit, with any positive rates. */
  ghost predicate Rotation(ws: seq<Wheel>, on: seq<bool>, rates: seq<seq<real>>, picks: seq<nat>) {
    |picks| == |rates| && |ws| == |picks| + 1 && |ws[0].credits| == |on| &&
    (forall i :: 0 <= i < |on| ==> ws[0].credits[i] == 0.0) &&
    forall t :: 0 <= t < |picks| ==> TurnAt(ws, on, rates, picks, t)
  }

  lemma {:induction false} TotalZero(xs: seq<real>, on: seq<bool>)
    requires |xs| == |on| && forall i :: 0 <= i < |on| ==> xs[i] == 0.0
    ensures Total(xs, on) == 0.0
  {
    if on != [] { TotalZero(xs[..|on| - 1], on[..|on| - 1]); }
  }

  /** Theorem: the credits stay balanced for ever. */
  lemma {:induction false} RotationBalanced(ws: seq<Wheel>, on: seq<bool>, rates: seq<seq<real>>, picks: seq<nat>,
                                            t: nat)
    requires Rotation(ws, on, rates, picks) && t < |ws|
    ensures Balanced(ws[t], on)
  {
    if t == 0 {
      TotalZero(ws[0].credits, on);
    } else {
      RotationBalanced(ws, on, rates, picks, t - 1);
      assert TurnAt(ws, on, rates, picks, t - 1);
      TurnBalanced(ws[t - 1], on, rates[t - 1], picks[t - 1], ws[t]);
    }
  }

  /** How often an address was picked. */
  function Picked(picks: seq<nat>, i: nat): nat {
    if picks == [] then 0 else Picked(picks[..|picks| - 1], i) + if picks[|picks| - 1] == i then 1 else 0
  }

  /** What an address was due so far. */
  ghost function Due(on: seq<bool>, rates: seq<seq<real>>, i: nat): real
    requires i < |on| && forall t :: 0 <= t < |rates| ==> GoodRates(on, rates[t])
  {
    if rates == [] then 0.0 else Due(on, rates[..|rates| - 1], i) + Share(on, rates[|rates| - 1], i)
  }

  lemma GoodTurns(ws: seq<Wheel>, on: seq<bool>, rates: seq<seq<real>>, picks: seq<nat>)
    requires Rotation(ws, on, rates, picks)
    ensures forall t :: 0 <= t < |rates| ==> GoodRates(on, rates[t])
  {
    forall t | 0 <= t < |rates| ensures GoodRates(on, rates[t]) { assert TurnAt(ws, on, rates, picks, t); }
  }

  /** A credit is exactly what was due less what was picked. */
  lemma {:induction false} CreditIsDebt(ws: seq<Wheel>, on: seq<bool>, rates: seq<seq<real>>, picks: seq<nat>, t: nat,
                                        i: nat)
    requires Rotation(ws, on, rates, picks) && t < |ws| && i < |on|
    requires forall k :: 0 <= k < |rates| ==> GoodRates(on, rates[k])
    ensures |ws[t].credits| == |on| && ws[t].credits[i] == Due(on, rates[..t], i) - Picked(picks[..t], i) as real
  {
    if t > 0 {
      CreditIsDebt(ws, on, rates, picks, t - 1, i);
      assert TurnAt(ws, on, rates, picks, t - 1);
      TurnCredits(ws[t - 1], on, rates[t - 1], picks[t - 1], ws[t]);
      assert rates[..t][..t - 1] == rates[..t - 1] && picks[..t][..t - 1] == picks[..t - 1];
    }
  }

  lemma PicksNearShares(ws: seq<Wheel>, on: seq<bool>, rates: seq<seq<real>>, picks: seq<nat>, t: nat, i: nat)
    requires Rotation(ws, on, rates, picks) && t < |ws| && i < |on| && on[i]
    requires forall k :: 0 <= k < |rates| ==> GoodRates(on, rates[k])
    ensures -1.0 < Due(on, rates[..t], i) - Picked(picks[..t], i) as real <= (Members(on) - 1) as real
  {
    RotationBalanced(ws, on, rates, picks, t);
    CreditIsDebt(ws, on, rates, picks, t, i);
    BalancedBounded(ws[t], on, i);
  }

  /** Theorem: at any time the picks of an address are within n of its accumulated share. */
  lemma PicksFollowShares(ws: seq<Wheel>, on: seq<bool>, rates: seq<seq<real>>, picks: seq<nat>, t: nat, i: nat)
    requires Rotation(ws, on, rates, picks) && t < |ws| && i < |on| && on[i]
    ensures (GoodTurns(ws, on, rates, picks);
             -1.0 < Due(on, rates[..t], i) - Picked(picks[..t], i) as real <= (Members(on) - 1) as real)
  {
    GoodTurns(ws, on, rates, picks);
    PicksNearShares(ws, on, rates, picks, t, i);
  }

  /** While an address is passed over, its credit grows by at least the exploration share each turn. */
  lemma {:induction false} PassedOverGains(ws: seq<Wheel>, on: seq<bool>, rates: seq<seq<real>>, picks: seq<nat>,
                                           a: nat, b: nat, i: nat)
    requires Rotation(ws, on, rates, picks) && a <= b < |ws| && i < |on| && on[i] && Members(on) >= 1
    requires forall t :: a <= t < b ==> picks[t] != i
    ensures |ws[a].credits| == |ws[b].credits| == |on|
    ensures ws[b].credits[i] >= ws[a].credits[i] + Gain(b - a, Members(on))
    decreases b
  {
    hide Gain;
    hide Explore;
    hide Members;
    hide Share;
    hide Total;
    RotationBalanced(ws, on, rates, picks, a);
    GainNothing(Members(on));
    if a < b {
      PassedOverGains(ws, on, rates, picks, a, b - 1, i);
      assert TurnAt(ws, on, rates, picks, b - 1);
      TurnCredits(ws[b - 1], on, rates[b - 1], picks[b - 1], ws[b]);
      SharesSumToOne(on, rates[b - 1]);
      OneMore(b - 1 - a, Members(on));
    }
  }

  lemma OneMore(k: nat, n: nat)
    requires n >= 1
    ensures Gain(k + 1, n) == Gain(k, n) + Explore(n)
  {
    assert (k + 1) as real == k as real + 1.0;
    Distribute(Explore(n), k as real, 1.0);
    hide Explore;
  }

  lemma GainNothing(n: nat)
    requires n >= 1
    ensures Gain(0, n) == 0.0
  {
  }

  /** Theorem: no eligible address waits 100 n * n turns. */
  lemma NoStarvation(ws: seq<Wheel>, on: seq<bool>, rates: seq<seq<real>>, picks: seq<nat>, a: nat, b: nat, i: nat)
    requires Rotation(ws, on, rates, picks) && a <= b < |ws| && i < |on| && on[i]
    requires b - a >= Patience(Members(on))
    ensures exists t :: a <= t < b && picks[t] == i
  {
    MembersPositive(on, i);
    hide Members;
    hide Total;
    hide TurnAt;
    hide Patience;
    hide Gain;
    RotationBalanced(ws, on, rates, picks, a);
    RotationBalanced(ws, on, rates, picks, b);
    BalancedBounded(ws[a], on, i);
    BalancedBounded(ws[b], on, i);
    hide Balanced;
    if forall t :: a <= t < b ==> picks[t] != i {
      PassedOverGains(ws, on, rates, picks, a, b, i);
      WaitTooLong(b - a, Members(on));
      assert false;
    }
  }

  /** What the exploration share alone earns in k turns. */
  function Gain(k: nat, n: nat): real
    requires n >= 1
  {
    k as real * Explore(n)
  }

  /** 100 n * n turns. */
  function Patience(n: nat): nat {
    100 * n * n
  }

  /** After 100 n * n turns the exploration share alone has earned n starts. */
  lemma WaitTooLong(w: nat, n: nat)
    requires n >= 1 && w >= Patience(n)
    ensures Gain(w, n) >= n as real
  {
    var m, x, e := n as real, w as real, Explore(n);
    ExploreAll(n);
    hide Explore;
    assert Patience(n) as real == 100.0 * m * m;
    hide Patience;
    Monotone(x, 100.0 * m * m, e);
    HundredHundredths(m, e);
  }

  lemma Monotone(x: real, y: real, e: real)
    requires x >= y && e > 0.0
    ensures x * e >= y * e
  {
    Scale(x - y, e);
    Distribute(e, x - y, y);
  }

  lemma HundredHundredths(m: real, e: real)
    requires e * m == EXPLORATION
    ensures (100.0 * m * m) * e == m
  {
    assert (100.0 * m * m) * e == (100.0 * m) * (e * m);
  }

  lemma Scale(x: real, e: real)
    requires x >= 0.0 && e > 0.0
    ensures x * e >= 0.0
  {
  }

  // -----------------------------------------------------------------
  // Equal rates
  // -----------------------------------------------------------------

  predicate AllOn(on: seq<bool>) {
    forall i :: 0 <= i < |on| ==> on[i]
  }

  predicate EqualRates(rates: seq<real>) {
    forall i :: 0 <= i < |rates| ==> rates[i] == rates[0]
  }

  lemma {:induction false} AllMembers(on: seq<bool>)
    requires AllOn(on)
    ensures Members(on) == |on|
  {
    if on != [] { AllMembers(on[..|on| - 1]); }
  }

  lemma {:induction false} TotalEqual(xs: seq<real>, on: seq<bool>, x: real)
    requires |xs| == |on| && forall i :: 0 <= i < |on| && on[i] ==> xs[i] == x
    ensures Total(xs, on) == x * Members(on) as real
  {
    TotalLow(xs, on, x);
    TotalHigh(xs, on, x);
  }

  /** What an address is owed after k of n equal shares. */
  function Owed(k: int, n: nat): real
    requires n >= 1
  {
    k as real * (1.0 / n as real)
  }

  lemma OwedNext(k: int, n: nat)
    requires n >= 1
    ensures Owed(k + 1, n) == Owed(k, n) + Owed(1, n)
  {
    var u := 1.0 / n as real;
    assert (k + 1) as real == k as real + 1.0;
    Distribute(u, k as real, 1.0);
  }

  lemma OwedFull(n: nat)
    requires n >= 1
    ensures Owed(n, n) == 1.0 && Owed(0, n) == 0.0
  {
    DivMul(1.0, n as real);
  }

  lemma EqualShares(on: seq<bool>, rates: seq<real>, i: nat)
    requires GoodRates(on, rates) && AllOn(on) && EqualRates(rates) && i < |on|
    ensures Share(on, rates, i) == Owed(1, |on|)
  {
    RatesTotal(on, rates);
    AllMembers(on);
    TotalEqual(rates, on, rates[0]);
    EqualQuotient(rates[0], |on| as real);
    hide Total;
    hide Members;
  }

  lemma EqualQuotient(x: real, n: real)
    requires x > 0.0 && n > 0.0
    ensures EXPLORATION / n + (1.0 - EXPLORATION) * x / (x * n) == 1.0 / n
  {
    var r := 1.0 - EXPLORATION;
    var e, p, u := EXPLORATION / n, r * x / (x * n), 1.0 / n;
    Nonnegative(x, n);
    DivMul(r * x, x * n);
    DivMul(EXPLORATION, n);
    DivMul(1.0, n);
    assert (p * n) * x == r * x by { Regroup(p, x, n); }
    Cancel(p * n, r, x);
    Distribute(n, e, p);
    Cancel(e + p, u, n);
  }

  lemma Regroup(p: real, x: real, n: real)
    ensures (p * n) * x == p * (x * n)
  {
  }

  lemma Cancel(a: real, b: real, x: real)
    requires x != 0.0 && a * x == b * x
    ensures a == b
  {
    assert (a - b) * x == 0.0;
  }

  /** After r picks of a round, those picked have paid and the others are still owed. */
  ghost predicate InRound(w: Wheel, n: nat, start: nat, r: nat) {
    0 < n && r < n && start < n && |w.credits| == n && w.cursor % n == (start + r) % n &&
    forall i :: 0 <= i < n ==> w.credits[i] == Owed(r, n) - if Ahead(start, n, i) < r then 1.0 else 0.0
  }

  lemma RoundTurn(w: Wheel, on: seq<bool>, rates: seq<real>, pick: nat, v: Wheel, start: nat, r: nat)
    requires Turn(w, on, rates, pick, v) && AllOn(on) && EqualRates(rates) && InRound(w, |on|, start, r)
    ensures pick == (start + r) % |on|
    ensures if r + 1 < |on| then InRound(v, |on|, start, r + 1) else InRound(v, |on|, start, 0)
  {
    hide Share;
    hide Owed;
    hide Ahead;
    var n := |on|;
    var c, first := Credited(w, on, rates), (start + r) % n;
    StartAhead(start, r, n);
    forall i | 0 <= i < n ensures c[i] == Owed(r + 1, n) - if Ahead(start, n, i) < r then 1.0 else 0.0 {
      EqualShares(on, rates, i);
      OwedNext(r, n);
    }
    AheadZero(w.cursor, n, first);
    assert on[first];
    AheadNonneg(w.cursor, n, pick);
    assert c[pick] == c[first] && Ahead(w.cursor, n, pick) == 0;
    AheadInjective(w.cursor, n, pick, first);
    hide InRound;
    hide EqualRates;
    RoundNext(w, v, n, start, r, c);
  }

  lemma AheadNonneg(cursor: nat, n: nat, i: nat)
    requires i < n
    ensures 0 <= Ahead(cursor, n, i) < n
  {
    AheadBy(cursor, n, i);
  }

  lemma StartAhead(start: nat, r: nat, n: nat)
    requires 0 < n && r < n && start < n
    ensures Ahead(start, n, (start + r) % n) == r
  {
    if start + r < n { Small(start + r, n); } else { Wrap(start + r - n, n); }
    AheadBy(start, n, (start + r) % n);
    Small(start, n);
  }

  lemma AheadZero(cursor: nat, n: nat, i: nat)
    requires i < n && cursor % n == i
    ensures Ahead(cursor, n, i) == 0
  {
    AheadBy(cursor, n, i);
  }

  lemma RoundNext(w: Wheel, v: Wheel, n: nat, start: nat, r: nat, c: seq<real>)
    requires 0 < n && r < n && start < n && |c| == n
    requires forall i :: 0 <= i < n ==> c[i] == Owed(r + 1, n) - if Ahead(start, n, i) < r then 1.0 else 0.0
    requires v.credits == c[(start + r) % n := c[(start + r) % n] - 1.0] && v.cursor == ((start + r) % n + 1) % n
    ensures if r + 1 < n then InRound(v, n, start, r + 1) else InRound(v, n, start, 0)
  {
    hide Owed;
    hide Ahead;
    var first := (start + r) % n;
    StartAhead(start, r, n);
    ModStep(start + r, n);
    forall i | 0 <= i < n ensures v.credits[i] == Owed(r + 1, n) - if Ahead(start, n, i) < r + 1 then 1.0 else 0.0 {
      if Ahead(start, n, i) == r { AheadInjective(start, n, i, first); }
    }
    if r + 1 == n {
      OwedFull(n);
      forall i | 0 <= i < n ensures 0 <= Ahead(start, n, i) < n { AheadNonneg(start, n, i); }
      Wrap(start, n);
      Small(start, n);
      Small(v.cursor, n);
    } else {
      Idempotent(start + r + 1, n);
    }
  }

  lemma Idempotent(x: nat, n: nat)
    requires n > 0
    ensures (x % n) % n == x % n
  {
    Small(x % n, n);
  }

  lemma ModStep(x: nat, n: nat)
    requires n > 0
    ensures (x % n + 1) % n == (x + 1) % n
  {
    var q, y := x / n, x % n;
    assert x == q * n + y;
    if y + 1 < n {
      Small(y + 1, n);
      Unwind(q, y + 1, n);
    } else {
      assert x + 1 == (q + 1) * n;
      Unwind(q + 1, 0, n);
      Unwind(1, 0, n);
    }
  }

  lemma Unwind(q: nat, y: nat, n: nat)
    requires y < n
    ensures (q * n + y) % n == y
  {
    assert (q * n + y) / n == q by { DivUnique(q * n + y, n, q, y); }
  }

  lemma DivUnique(x: nat, n: nat, q: nat, y: nat)
    requires n > 0 && y < n && x == q * n + y
    ensures x / n == q && x % n == y
  {
    var q' := x / n;
    if q' < q { AtLeast(q - q', n); } else if q' > q { AtLeast(q' - q, n); }
  }

  lemma AtLeast(k: nat, n: nat)
    requires k >= 1
    ensures k * n >= n
  {
  }

  /** With equal rates the credits go through the same round again and again. */
  lemma {:induction false} RoundRobin(ws: seq<Wheel>, on: seq<bool>, rates: seq<seq<real>>, picks: seq<nat>, t: nat)
    requires Rotation(ws, on, rates, picks) && AllOn(on) && |on| > 0 && t < |ws|
    requires forall k :: 0 <= k < |rates| ==> EqualRates(rates[k])
    ensures InRound(ws[t], |on|, ws[0].cursor % |on|, t % |on|)
  {
    var n, start := |on|, ws[0].cursor % |on|;
    if t == 0 {
      Small(start, n);
      Small(0, n);
      OwedFull(n);
      forall i | 0 <= i < n ensures 0 <= Ahead(start, n, i) { AheadNonneg(start, n, i); }
    } else {
      hide InRound;
      RoundRobin(ws, on, rates, picks, t - 1);
      assert TurnAt(ws, on, rates, picks, t - 1);
      hide Turn;
      RoundTurn(ws[t - 1], on, rates[t - 1], picks[t - 1], ws[t], start, (t - 1) % n);
      ModStep(t - 1, n);
      if (t - 1) % n + 1 < n { Small((t - 1) % n + 1, n); } else { Unwind(1, 0, n); }
    }
  }

  /** Theorem: with equal rates the t-th pick is the address t places after the cursor. */
  lemma EqualRatesGoRound(ws: seq<Wheel>, on: seq<bool>, rates: seq<seq<real>>, picks: seq<nat>, t: nat)
    requires Rotation(ws, on, rates, picks) && AllOn(on) && |on| > 0 && t < |picks|
    requires forall k :: 0 <= k < |rates| ==> EqualRates(rates[k])
    ensures picks[t] == (ws[0].cursor + t) % |on|
  {
    RoundRobin(ws, on, rates, picks, t);
    assert TurnAt(ws, on, rates, picks, t);
    hide InRound;
    hide Turn;
    RoundTurn(ws[t], on, rates[t], picks[t], ws[t + 1], ws[0].cursor % |on|, t % |on|);
    ModSum(ws[0].cursor, t, |on|);
  }

  lemma ModSum(x: nat, y: nat, n: nat)
    requires n > 0
    ensures (x % n + y % n) % n == (x + y) % n
  {
    ModSumAt(x / n, x % n, y / n, y % n, n);
    QuotientParts(x, n);
    QuotientParts(y, n);
  }

  lemma QuotientParts(x: nat, n: nat)
    requires n > 0
    ensures x == (x / n) * n + x % n
  {
  }

  lemma ModSumAt(q: nat, a: nat, r: nat, b: nat, n: nat)
    requires a < n && b < n
    ensures (a + b) % n == ((q * n + a) + (r * n + b)) % n
  {
    SumProducts(q, r, n);
    if a + b < n {
      Small(a + b, n);
      Unwind(q + r, a + b, n);
    } else {
      Wrap(a + b - n, n);
      SumProducts(q + r, 1, n);
      Unwind(q + r + 1, a + b - n, n);
    }
  }

  lemma SumProducts(q: nat, r: nat, n: nat)
    ensures (q + r) * n == q * n + r * n
  {
  }

  // -----------------------------------------------------------------
  // The loops
  // -----------------------------------------------------------------

  /** Dividing every rate by the same maximum changes no share. */
  lemma Normalized(r: real, m: real, t: real)
    requires m > 0.0 && t > 0.0
    ensures t / m > 0.0 && (1.0 - EXPLORATION) * (r / m) / (t / m) == (1.0 - EXPLORATION) * r / t
  {
    var k := 1.0 - EXPLORATION;
    var a, b, q := r / m, t / m, k * r / t;
    PositiveQuotient(t, m);
    DivMul(r, m);
    DivMul(t, m);
    DivMul(k * r, t);
    DivMul(k * a, b);
    var p := k * a / b;
    assert p * (b * m) == (k * a) * m by { Regroup(p, m, b); assert (p * b) * m == (k * a) * m; }
    assert (k * a) * m == k * r by { Regroup3(k, a, m); }
    Cancel(p, q, t);
  }

  lemma Regroup3(k: real, a: real, m: real)
    ensures (k * a) * m == k * (a * m)
  {
  }

  /** The sum of rates that have been divided by m. */
  lemma {:induction false} ScaledTotal(rates: seq<real>, scaled: seq<real>, on: seq<bool>, m: real)
    requires |rates| == |scaled| == |on| && m > 0.0
    requires forall i :: 0 <= i < |on| && on[i] ==> scaled[i] == rates[i] / m
    ensures Total(scaled, on) == Total(rates, on) / m
  {
    if on != [] {
      var n := |on| - 1;
      ScaledTotal(rates[..n], scaled[..n], on[..n], m);
      QuotientSum(Total(rates[..n], on[..n]), if on[n] then rates[n] else 0.0, m);
    }
  }

  lemma QuotientSum(x: real, y: real, m: real)
    requires m > 0.0
    ensures (x + y) / m == x / m + y / m && 0.0 / m == 0.0
  {
  }

  lemma TotalPrefix(xs: seq<real>, on: seq<bool>, k: nat)
    requires |xs| == |on| && k < |on|
    ensures Total(xs[..k + 1], on[..k + 1]) == Total(xs[..k], on[..k]) + if on[k] then xs[k] else 0.0
  {
    assert xs[..k + 1][..k] == xs[..k] && on[..k + 1][..k] == on[..k];
  }

  lemma MembersPrefix(on: seq<bool>, k: nat)
    requires k < |on|
    ensures Members(on[..k + 1]) == Members(on[..k]) + if on[k] then 1 else 0
  {
    assert on[..k + 1][..k] == on[..k];
  }

  /** The best eligible address among the first k places from the cursor. */
  ghost predicate Best(c: seq<real>, on: seq<bool>, cursor: nat, k: nat, pick: nat) {
    |c| == |on| && pick < |on| && on[pick] && Ahead(cursor, |on|, pick) < k &&
    forall i :: 0 <= i < |on| && on[i] && Ahead(cursor, |on|, i) < k ==>
      c[i] <= c[pick] && (c[i] == c[pick] ==> Ahead(cursor, |on|, pick) <= Ahead(cursor, |on|, i))
  }

  /** The address at a given place from the cursor. */
  lemma AtPlace(cursor: nat, n: nat, k: nat)
    requires k < n
    ensures Ahead(cursor, n, (cursor % n + k) % n) == k
    ensures forall i :: 0 <= i < n && Ahead(cursor, n, i) == k ==> i == (cursor % n + k) % n
  {
    StartAhead(cursor % n, k, n);
    Idempotent(cursor, n);
    forall i | 0 <= i < n && Ahead(cursor, n, i) == k ensures i == (cursor % n + k) % n {
      AheadInjective(cursor, n, i, (cursor % n + k) % n);
    }
  }

  /** Looking at one more place from the cursor. */
  lemma BestNext(c: seq<real>, on: seq<bool>, cursor: nat, k: nat, pick: nat)
    requires |c| == |on| && k < |on| && pick <= |on|
    requires Best(c, on, cursor, k, pick) ||
             (pick == |on| && forall i :: 0 <= i < |on| && on[i] ==> Ahead(cursor, |on|, i) >= k)
    ensures pick < |on| || !Best(c, on, cursor, k, pick)
    ensures var candidate := (cursor % |on| + k) % |on|;
      if on[candidate] && (pick == |on| || c[candidate] > c[pick]) then Best(c, on, cursor, k + 1, candidate)
      else
        Best(c, on, cursor, k + 1, pick) ||
        (pick == |on| && forall i :: 0 <= i < |on| && on[i] ==> Ahead(cursor, |on|, i) >= k + 1)
  {
    hide Ahead;
    AtPlace(cursor, |on|, k);
  }

  lemma BestLeads(c: seq<real>, on: seq<bool>, cursor: nat, pick: nat)
    requires Best(c, on, cursor, |on|, pick)
    ensures Leads(c, on, cursor, pick)
  {
    forall i | 0 <= i < |on| ensures Ahead(cursor, |on|, i) < |on| { AheadNonneg(cursor, |on|, i); }
    hide Ahead;
  }

  /** How many addresses are eligible, and the largest of their rates. */
  method CountEligible(on: seq<bool>, measured: seq<real>) returns (available: nat, maximum: real)
    requires |on| == |measured| && forall i :: 0 <= i < |on| && on[i] ==> measured[i] > 0.0
    ensures available == Members(on) && (available > 0 <==> exists i :: 0 <= i < |on| && on[i])
    ensures available > 0 ==> maximum > 0.0
  {
    hide Members;
    available, maximum := 0, 0.0;
    MembersEmpty();
    for index := 0 to |on|
      invariant available == Members(on[..index])
      invariant available == 0 ==> forall i :: 0 <= i < index ==> !on[i]
      invariant available > 0 ==> maximum > 0.0 && exists i :: 0 <= i < index && on[i]
    {
      MembersPrefix(on, index);
      if on[index] {
        available := available + 1;
        if measured[index] > maximum { maximum := measured[index]; }
      }
    }
    assert on[..|on|] == on;
  }

  /** Every eligible address earns its share. */
  method CreditEligible(credits: array<real>, on: seq<bool>, measured: seq<real>, available: nat, maximum: real,
                        ghost w: Wheel)
    requires GoodRates(on, measured) && credits.Length == |on| && w.credits == credits[..] &&
             available == Members(on) && maximum > 0.0
    modifies credits
    ensures credits[..] == Credited(w, on, measured)
  {
    hide Total;
    hide Members;
    hide Share;
    hide Explore;
    var total := SumNormalized(on, measured, maximum);
    RatesTotal(on, measured);
    for index := 0 to |on|
      invariant forall i :: 0 <= i < index ==> credits[i] == Credited(w, on, measured)[i]
      invariant forall i :: index <= i < |on| ==> credits[i] == w.credits[i]
    {
      if on[index] {
        CreditStep(on, measured, maximum, total, index);
        var earned := Explore(available) + (1.0 - EXPLORATION) * (measured[index] / maximum) / total;
        credits[index] := credits[index] + earned;
      } else {
        NoCredit(on, measured, index);
      }
    }
  }

  /** The scan from the cursor. */
  method PickEligible(credits: array<real>, next: nat, on: seq<bool>) returns (selected: nat)
    requires credits.Length == |on| && exists i :: 0 <= i < |on| && on[i]
    ensures Leads(credits[..], on, next, selected)
  {
    hide Ahead;
    hide Leads;
    hide Best;
    var count := |on|;
    var cursor := next % count;
    selected := count;
    ghost var c := credits[..];
    NobodyBefore(on, next);
    for offset := 0 to count
      invariant selected <= count
      invariant Best(c, on, next, offset,
                     selected) || (selected == count && forall i :: 0 <= i < count && on[i] ==>
                       Ahead(next, count, i) >= offset)
    {
      BestNext(c, on, next, offset, selected);
      var candidate := (cursor + offset) % count;
      if on[candidate] && (selected == count || credits[candidate] > credits[selected]) { selected := candidate; }
    }
    SomeoneLeads(on, next);
    BestLeads(c, on, next, selected);
  }

  lemma NobodyBefore(on: seq<bool>, cursor: nat)
    ensures forall i :: 0 <= i < |on| && on[i] ==> Ahead(cursor, |on|, i) >= 0
  {
  }

  /** The mobile selection: only eligible addresses earn and are picked; with none the caller gets an error. */
  method SelectEligible(credits: array<real>, next: nat, on: seq<bool>, measured: seq<real>)
    returns (r: Result<nat>, after: nat)
    requires credits.Length == |on| == |measured|
    requires forall i :: 0 <= i < |on| && on[i] ==> measured[i] > 0.0
    modifies credits
    ensures r.Ok? <==> exists i :: 0 <= i < |on| && on[i]
    ensures r.Ok? ==> Turn(Wheel(old(credits[..]), next), on, measured, r.value, Wheel(credits[..], after))
    ensures r.Err? ==> credits[..] == old(credits[..]) && after == next
  {
    hide Share;
    hide Ahead;
    hide Members;
    var available, maximum := CountEligible(on, measured);
    if available == 0 { return Err("CLAIM_LOCAL_UNAVAILABLE"), next; }
    ghost var w := Wheel(credits[..], next);
    CreditEligible(credits, on, measured, available, maximum, w);
    var selected := PickEligible(credits, next, on);
    ghost var c := credits[..];
    credits[selected] := credits[selected] - 1.0;
    r, after := Ok(selected), (selected + 1) % |on|;
    assert credits[..] == c[selected := c[selected] - 1.0];
  }

  lemma MembersEmpty()
    ensures Members([]) == 0
  {
  }

  lemma SomeoneLeads(on: seq<bool>, cursor: nat)
    requires exists i :: 0 <= i < |on| && on[i]
    ensures exists i :: 0 <= i < |on| && on[i] && Ahead(cursor, |on|, i) < |on|
  {
    var i :| 0 <= i < |on| && on[i];
    AheadNonneg(cursor, |on|, i);
  }

  lemma NoCredit(on: seq<bool>, rates: seq<real>, i: nat)
    requires GoodRates(on, rates) && i < |on| && !on[i]
    ensures Share(on, rates, i) == 0.0
  {
    hide Total;
    hide Members;
  }

  /** The credit of one turn, computed with normalised rates. */
  lemma CreditStep(on: seq<bool>, rates: seq<real>, maximum: real, total: real, i: nat)
    requires GoodRates(on, rates) && i < |on| && on[i] && maximum > 0.0 && total == Total(rates, on) / maximum
    ensures total > 0.0 && Members(on) >= 1
    ensures Share(on, rates, i) == Explore(Members(on)) + (1.0 - EXPLORATION) * (rates[i] / maximum) / total
  {
    hide Total;
    hide Members;
    hide Explore;
    RatesTotal(on, rates);
    Normalized(rates[i], maximum, Total(rates, on));
  }

  /** The sum of the normalised rates. */
  method SumNormalized(on: seq<bool>, rates: seq<real>, maximum: real) returns (total: real)
    requires |on| == |rates| && maximum > 0.0
    ensures total == Total(rates, on) / maximum
  {
    ghost var scaled := seq(|on|, i requires 0 <= i < |on| => rates[i] / maximum);
    total := 0.0;
    for index := 0 to |on|
      invariant total == Total(scaled[..index], on[..index])
    {
      TotalPrefix(scaled, on, index);
      if on[index] { total := total + rates[index] / maximum; }
    }
    assert scaled[..|on|] == scaled && on[..|on|] == on;
    ScaledTotal(rates, scaled, on, maximum);
  }

  method LargestRate(rates: seq<real>) returns (maximum: real)
    requires 0 < |rates| && forall i :: 0 <= i < |rates| ==> rates[i] > 0.0
    ensures maximum in rates && forall i :: 0 <= i < |rates| ==> rates[i] <= maximum
  {
    maximum := rates[0];
    for i := 1 to |rates|
      invariant maximum in rates && forall k :: 0 <= k < i ==> rates[k] <= maximum
    {
      if rates[i] > maximum { maximum := rates[i]; }
    }
  }

  method CreditAll(credits: array<real>, rates: seq<real>, maximum: real, ghost on: seq<bool>, ghost w: Wheel)
    requires GoodRates(on, rates) && AllOn(on) && credits.Length == |on| && w.credits == credits[..] && maximum > 0.0
    modifies credits
    ensures credits[..] == Credited(w, on, rates)
  {
    hide Total;
    hide Members;
    hide Share;
    hide Explore;
    var count := |rates|;
    AllMembers(on);
    var total := SumAll(rates, maximum, on);
    for i := 0 to count
      invariant forall k :: 0 <= k < i ==> credits[k] == Credited(w, on, rates)[k]
      invariant forall k :: i <= k < count ==> credits[k] == w.credits[k]
    {
      CreditStep(on, rates, maximum, total, i);
      var earned := Explore(count) + (1.0 - EXPLORATION) * (rates[i] / maximum) / total;
      credits[i] := credits[i] + earned;
    }
  }

  /** The scan that starts at the cursor itself. */
  method PickAvailable(credits: array<real>, next: nat, ghost on: seq<bool>) returns (selected: nat)
    requires 0 < credits.Length == |on| && AllOn(on)
    ensures Leads(credits[..], on, next, selected)
  {
    hide Ahead;
    hide Leads;
    hide Best;
    var count := credits.Length;
    var cursor := next % count;
    FirstPlace(credits[..], on, next);
    selected := cursor;
    for offset := 1 to count
      invariant selected < count && Best(credits[..], on, next, offset, selected)
    {
      BestNext(credits[..], on, next, offset, selected);
      var candidate := (cursor + offset) % count;
      if credits[candidate] > credits[selected] { selected := candidate; }
    }
    BestLeads(credits[..], on, next, selected);
  }

  /** The desktop selection walks over the available addresses only. */
  method SelectAvailable(credits: array<real>, next: nat, rates: seq<real>) returns (selected: nat, after: nat)
    requires 0 < credits.Length == |rates| && forall i :: 0 <= i < |rates| ==> rates[i] > 0.0
    modifies credits
    ensures Turn(Wheel(old(credits[..]), next), seq(|rates|, _ => true), rates, selected, Wheel(credits[..], after))
  {
    hide Share;
    hide Ahead;
    ghost var on := seq(|rates|, _ => true);
    assert on[0];
    ghost var w := Wheel(credits[..], next);
    var maximum := LargestRate(rates);
    CreditAll(credits, rates, maximum, on, w);
    selected := PickAvailable(credits, next, on);
    ghost var c := credits[..];
    credits[selected] := credits[selected] - 1.0;
    after := (selected + 1) % credits.Length;
    assert credits[..] == c[selected := c[selected] - 1.0];
  }

  lemma FirstPlace(c: seq<real>, on: seq<bool>, cursor: nat)
    requires 0 < |on| == |c| && AllOn(on)
    ensures Best(c, on, cursor, 1, cursor % |on|)
  {
    AtPlace(cursor, |on|, 0);
    Small(cursor % |on|, |on|);
    forall i | 0 <= i < |on| ensures 0 <= Ahead(cursor, |on|, i) { AheadNonneg(cursor, |on|, i); }
    hide Ahead;
  }

  method SumAll(rates: seq<real>, maximum: real, ghost on: seq<bool>) returns (total: real)
    requires maximum > 0.0 && |on| == |rates| && AllOn(on)
    ensures total == Total(rates, on) / maximum
  {
    ghost var scaled := seq(|rates|, i requires 0 <= i < |rates| => rates[i] / maximum);
    total := 0.0;
    for i := 0 to |rates|
      invariant total == Total(scaled[..i], on[..i])
    {
      TotalPrefix(scaled, on, i);
      total := total + rates[i] / maximum;
    }
    assert scaled[..|rates|] == scaled && on[..|rates|] == on;
    ScaledTotal(rates, scaled, on, maximum);
  }
}
