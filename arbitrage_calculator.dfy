/** `ArbitrageCalculator`: the arbitrage index of a list of decimal prices, the stake
    split that equalises every leg's payout, and the guaranteed profit of that split. */
module ArbitrageCalculator {
  import opened Numeric

  /** No price is zero (the source divides by each price). */
  predicate NonZero(odds: seq<real>)
  {
    forall i :: 0 <= i < |odds| ==> odds[i] != 0.0
  }

  predicate AllPositive(odds: seq<real>)
  {
    forall i :: 0 <= i < |odds| ==> odds[i] > 0.0
  }

  function Reciprocals(odds: seq<real>): (rs: seq<real>)
    requires NonZero(odds)
    ensures |rs| == |odds| && forall i :: 0 <= i < |odds| ==> rs[i] == 1.0 / odds[i]
  {
    seq(|odds|, i requires 0 <= i < |odds| => 1.0 / odds[i])
  }

  /** `calculate_arbitrage_percentage`: the sum of the reciprocals of the prices. An index
      below 1.0 means backing every outcome at these prices returns more than it costs. */
  function ArbitrageIndex(odds: seq<real>): (r: real)
    requires NonZero(odds)
    ensures odds == [] ==> r == 0.0
    ensures AllPositive(odds) && odds != [] ==> r > 0.0
  {
    var rs := Reciprocals(odds);
    SumPositive(rs);
    Sum(rs)
  }

  /** A non-empty sum of positive terms is positive. */
  lemma SumPositive(s: seq<real>)
    ensures s != [] && (forall i :: 0 <= i < |s| ==> s[i] > 0.0) ==> Sum(s) > 0.0
  {
    if s != [] && forall i :: 0 <= i < |s| ==> s[i] > 0.0 {
      SumNonNegative(s[..|s| - 1]);
    }
  }

  lemma ArbitrageIndexAppend(odds: seq<real>, p: real)
    requires NonZero(odds) && p != 0.0
    ensures NonZero(odds + [p])
    ensures ArbitrageIndex(odds + [p]) == ArbitrageIndex(odds) + 1.0 / p
  {
    assert Reciprocals(odds + [p]) == Reciprocals(odds) + [1.0 / p];
    SumAppend(Reciprocals(odds), 1.0 / p);
  }

  /** The stakes can be split whenever the list is empty (the source's loop then never
      divides) or the index is non-zero. */
  predicate Splittable(odds: seq<real>)
  {
    NonZero(odds) && (odds == [] || ArbitrageIndex(odds) != 0.0)
  }

  /** The unrounded stake on a leg priced `price`: the total scaled by the index, times
      1/price. */
  function ExactStake(index: real, total: real, price: real): real
    requires index != 0.0 && price != 0.0
  {
    (total / index) * (1.0 / price)
  }

  /** `calculate_stakes`: every exact stake rounded to cents, one per price and in the
      same order. */
  function Stakes(odds: seq<real>, total: real): (s: seq<real>)
    requires Splittable(odds)
    ensures |s| == |odds|
    ensures forall i :: 0 <= i < |s| ==> -0.005 < s[i] - ExactStake(ArbitrageIndex(odds), total, odds[i]) <= 0.005
  {
    assert Pow10(2) == 100;
    seq(|odds|, i requires 0 <= i < |odds| => Round(ExactStake(ArbitrageIndex(odds), total, odds[i]), 2))
  }

  /** The source's loop, appending one rounded stake per price. */
  method CalculateStakes(odds: seq<real>, total: real) returns (stakes: seq<real>)
    requires Splittable(odds)
    ensures stakes == Stakes(odds, total)
  {
    var index := ArbitrageIndex(odds);
    stakes := [];
    var i := 0;
    while i < |odds|
      invariant 0 <= i <= |odds|
      invariant |stakes| == i
      invariant forall k :: 0 <= k < i ==> stakes[k] == Round(ExactStake(ArbitrageIndex(odds), total, odds[k]), 2)
    {
      var stake := ExactStake(index, total, odds[i]);
      stakes := stakes + [Round(stake, 2)];
      i := i + 1;
    }
  }

  /** What the profit computation may be called on: an index of at least 1.0 returns
      early; otherwise the source reads the first stake, so the list must be non-empty. */
  predicate ProfitDefined(odds: seq<real>)
  {
    NonZero(odds) && (ArbitrageIndex(odds) >= 1.0 || (odds != [] && ArbitrageIndex(odds) != 0.0))
  }

  /** `calculate_guaranteed_profit`: 0.0 when there is no arbitrage; otherwise the first
      leg's payout minus the total, rounded to cents. It is within half a cent plus half a
      cent per unit of the first price of the exact profit total/I - total. */
  function GuaranteedProfit(odds: seq<real>, total: real): (p: real)
    requires ProfitDefined(odds)
    ensures ArbitrageIndex(odds) >= 1.0 ==> p == 0.0
    ensures ArbitrageIndex(odds) < 1.0 && odds[0] > 0.0 ==>
      -0.005 - 0.005 * odds[0] < p - (total / ArbitrageIndex(odds) - total) <= 0.005 + 0.005 * odds[0]
  {
    if ArbitrageIndex(odds) >= 1.0 then 0.0
    else
      var stakes := Stakes(odds, total);
      var payout := stakes[0] * odds[0];
      var exact := total / ArbitrageIndex(odds);
      assert Pow10(2) == 100;
      ExactPayoutEqual(ArbitrageIndex(odds), total, odds[0]);
      ProfitBound(stakes[0], ExactStake(ArbitrageIndex(odds), total, odds[0]), odds[0], exact);
      CombineBounds(Round(payout - total, 2), payout, exact, total, odds[0]);
      Round(payout - total, 2)
  }

  /** A stake off by at most half a cent pays off by at most half a cent per unit of price. */
  lemma ProfitBound(s: real, e: real, p: real, payout: real)
    requires -0.005 < s - e <= 0.005 && e * p == payout
    ensures p > 0.0 ==> -0.005 * p < s * p - payout <= 0.005 * p
  {
    var d := s - e;
    assert s * p == e * p + d * p;
    if p > 0.0 {
      MulStrict(p, -0.005, d);
      MulMonotone(p, d, 0.005);
      assert p * d == d * p && p * -0.005 == -0.005 * p && p * 0.005 == 0.005 * p;
      assert s * p - payout == d * p;
      assert -0.005 * p < d * p;
      assert d * p <= 0.005 * p;
    }
  }

  /** Half a cent of rounding on top of a payout off by half a cent per unit of price. */
  lemma CombineBounds(r: real, payout: real, exact: real, total: real, p: real)
    requires -0.005 < r - (payout - total) <= 0.005
    ensures p > 0.0 && -0.005 * p < payout - exact <= 0.005 * p ==>
      -0.005 - 0.005 * p < r - (exact - total) <= 0.005 + 0.005 * p
  {
  }

  lemma MulStrict(q: real, a: real, b: real)
    requires q > 0.0 && a < b
    ensures q * a < q * b
  {
    assert q * b - q * a == q * (b - a);
  }

  lemma MulMonotone(q: real, a: real, b: real)
    requires q >= 0.0 && a <= b
    ensures q * a <= q * b
  {
    assert q * b - q * a == q * (b - a);
  }

  // ---------------------------------------------------------------------------
  // What the split guarantees before rounding.

  /** Every leg pays the same amount, total/I, before rounding. */
  lemma ExactPayoutEqual(index: real, total: real, price: real)
    requires index != 0.0 && price != 0.0
    ensures ExactStake(index, total, price) * price == total / index
  {
    var c := total / index;
    assert (1.0 / price) * price == 1.0;
    assert (c * (1.0 / price)) * price == c * ((1.0 / price) * price);
  }

  function ExactStakes(odds: seq<real>, total: real): (s: seq<real>)
    requires Splittable(odds)
    ensures |s| == |odds| && forall i :: 0 <= i < |s| ==> s[i] == ExactStake(ArbitrageIndex(odds), total, odds[i])
  {
    seq(|odds|, i requires 0 <= i < |odds| => ExactStake(ArbitrageIndex(odds), total, odds[i]))
  }

  /** The unrounded stakes add up to the total. */
  lemma ExactStakesSum(odds: seq<real>, total: real)
    requires Splittable(odds) && odds != []
    ensures Sum(ExactStakes(odds, total)) == total
  {
    var r := ArbitrageIndex(odds);
    var c := total / r;
    var rs := Reciprocals(odds);
    assert forall i :: 0 <= i < |odds| ==> ExactStakes(odds, total)[i] == Scale(c, rs)[i];
    assert ExactStakes(odds, total) == Scale(c, rs);
    SumScale(c, rs);
    DivCancel(total, r);
  }

  lemma DivCancel(t: real, r: real)
    requires r != 0.0
    ensures (t / r) * r == t
  {
  }

  lemma Distribute(c: real, a: real, b: real)
    ensures c * (a + b) == c * a + c * b
  {
  }

  function Scale(c: real, s: seq<real>): (t: seq<real>)
    ensures |t| == |s| && forall i :: 0 <= i < |s| ==> t[i] == c * s[i]
  {
    seq(|s|, i requires 0 <= i < |s| => c * s[i])
  }

  /** A common factor comes out of a sum. */
  lemma {:induction false} SumScale(c: real, s: seq<real>)
    ensures Sum(Scale(c, s)) == c * Sum(s)
  {
    if s != [] {
      var p := s[..|s| - 1];
      var x := s[|s| - 1];
      SumScale(c, p);
      assert forall k :: 0 <= k < |p| ==> Scale(c, s)[k] == Scale(c, p)[k];
      assert Scale(c, s)[..|s| - 1] == Scale(c, p);
      Distribute(c, Sum(p), x);
    }
  }

  /** With positive prices and a positive total, the exact profit total/I - total is
      positive exactly when the index is below 1.0. */
  lemma ExactProfitPositiveIff(odds: seq<real>, total: real)
    requires AllPositive(odds) && odds != [] && total > 0.0
    ensures total / ArbitrageIndex(odds) - total > 0.0 <==> ArbitrageIndex(odds) < 1.0
  {
    QuotientAboveIff(total, ArbitrageIndex(odds));
  }

  lemma QuotientAboveIff(t: real, r: real)
    requires t > 0.0 && r > 0.0
    ensures t / r > t <==> r < 1.0
  {
    var q := t / r;
    assert q * r == t;
    assert q > 0.0;
    if r < 1.0 {
      ScaledBelow(q, r, t);
    } else {
      ScaledAbove(q, r, t);
    }
  }

  lemma ScaledBelow(q: real, r: real, t: real)
    requires q > 0.0 && r < 1.0 && q * r == t
    ensures t < q
  {
    MulStrict(q, r, 1.0);
  }

  lemma ScaledAbove(q: real, r: real, t: real)
    requires q > 0.0 && r >= 1.0 && q * r == t
    ensures q <= t
  {
    MulMonotone(q, 1.0, r);
  }

  /** After rounding the legs no longer pay exactly the same: two legs' payouts differ by
      at most half a cent times the sum of their prices. */
  lemma RoundedPayoutSpread(odds: seq<real>, total: real, i: int, j: int)
    requires Splittable(odds) && AllPositive(odds) && 0 <= i < |odds| && 0 <= j < |odds|
    ensures var s := Stakes(odds, total);
            -0.005 * (odds[i] + odds[j]) <= s[i] * odds[i] - s[j] * odds[j] <= 0.005 * (odds[i] + odds[j])
  {
    var s := Stakes(odds, total);
    var payout := total / ArbitrageIndex(odds);
    ExactPayoutEqual(ArbitrageIndex(odds), total, odds[i]);
    ExactPayoutEqual(ArbitrageIndex(odds), total, odds[j]);
    assert -0.005 < s[i] - ExactStake(ArbitrageIndex(odds), total, odds[i]) <= 0.005;
    assert -0.005 < s[j] - ExactStake(ArbitrageIndex(odds), total, odds[j]) <= 0.005;
    ProfitBound(s[i], ExactStake(ArbitrageIndex(odds), total, odds[i]), odds[i], payout);
    ProfitBound(s[j], ExactStake(ArbitrageIndex(odds), total, odds[j]), odds[j], payout);
    var di := s[i] * odds[i] - payout;
    var dj := s[j] * odds[j] - payout;
    assert s[i] * odds[i] - s[j] * odds[j] == di - dj;
  }

  // ---------------------------------------------------------------------------
  // The two worked scenarios.

  /** Prices 2.10 and 2.05 with a total of 100: index 830/861 (about 0.9640), stakes 49.40
      and 50.60, profit 3.74; the two legs pay 103.74 and 103.73. */
  lemma ScenarioArbitrage()
    ensures ArbitrageIndex([2.10, 2.05]) == 830.0 / 861.0
    ensures Stakes([2.10, 2.05], 100.0) == [49.40, 50.60]
    ensures GuaranteedProfit([2.10, 2.05], 100.0) == 3.74
    ensures 49.40 * 2.10 == 103.74 && 50.60 * 2.05 == 103.73
  {
    var odds := [2.10, 2.05];
    var rs := Reciprocals(odds);
    assert rs == [1.0 / 2.10, 1.0 / 2.05];
    assert rs[..1] == [1.0 / 2.10] && rs[..1][..0] == [];
    assert Sum(rs[..1]) == 1.0 / 2.10;
    assert Sum(rs) == 1.0 / 2.10 + 1.0 / 2.05;
    assert ArbitrageIndex(odds) == 830.0 / 861.0;
    assert Pow10(2) == 100;
    assert ExactStake(830.0 / 861.0, 100.0, 2.10) == 861000.0 / 17430.0;
    assert ScaledFloor(861000.0 / 17430.0, 2) == 4940;
    assert ExactStake(830.0 / 861.0, 100.0, 2.05) == 1722000.0 / 34030.0;
    assert ScaledFloor(1722000.0 / 34030.0, 2) == 5060;
    var s := Stakes(odds, 100.0);
    assert s[0] == 49.40 && s[1] == 50.60;
    assert s == [49.40, 50.60];
    assert ScaledFloor(49.40 * 2.10 - 100.0, 2) == 374;
  }

  /** Prices 1.90 and 1.90: index 20/19, at least 1.0, so no profit. */
  lemma ScenarioNoArbitrage()
    ensures ArbitrageIndex([1.90, 1.90]) == 20.0 / 19.0
    ensures GuaranteedProfit([1.90, 1.90], 100.0) == 0.0
  {
    var odds := [1.90, 1.90];
    var rs := Reciprocals(odds);
    assert rs == [1.0 / 1.90, 1.0 / 1.90];
    assert rs[..1] == [1.0 / 1.90] && rs[..1][..0] == [];
    assert Sum(rs[..1]) == 1.0 / 1.90;
    assert Sum(rs) == 1.0 / 1.90 + 1.0 / 1.90;
  }
}
