/** Risk-based position sizing (trading-bot/app/lot_sizing.py, repeated in
    main.py under "LOT SIZING").

    Amounts are exact reals. Python's `round(x, 2)` is modelled as rounding
    x to the nearest multiple of 0.01, a tie going to the even number of
    hundredths, which is what Python's `round` does with the exact value it
    is given. */
module LotSizing {

  /** True when x is a whole number of hundredths. */
  predicate IsHundredth(x: real) {
    (x * 100.0).Floor as real == x * 100.0
  }

  /** True when x is an even number of hundredths (0.00, 0.02, ...). */
  predicate EvenHundredths(x: real) {
    (x * 100.0).Floor % 2 == 0
  }

  /** The integer nearest to y; a tie (y exactly halfway between two
      integers) goes to the even one. */
  function RoundHalfEven(y: real): (k: int)
    ensures y - 0.5 <= k as real <= y + 0.5
    ensures (k as real == y + 0.5 || k as real == y - 0.5) ==> k % 2 == 0
  {
    var f := y.Floor;
    var frac := y - f as real;
    if frac < 0.5 then f
    else if frac > 0.5 then f + 1
    else if f % 2 == 0 then f
    else f + 1
  }

  /** The two conditions of RoundHalfEven's contract pick out one integer. */
  lemma RoundHalfEvenUnique(y: real, j: int)
    requires y - 0.5 <= j as real <= y + 0.5
    requires (j as real == y + 0.5 || j as real == y - 0.5) ==> j % 2 == 0
    ensures RoundHalfEven(y) == j
  {
  }

  /** Rounding to the nearest integer never reverses the order of two reals. */
  lemma RoundHalfEvenMonotone(x: real, y: real)
    requires x <= y
    ensures RoundHalfEven(x) <= RoundHalfEven(y)
  {
  }

  /** Python's round(x, 2): x rounded to the nearest hundredth. */
  function Round2(x: real): (r: real)
    ensures IsHundredth(r)
    ensures x - 0.005 <= r <= x + 0.005
    ensures (r == x + 0.005 || r == x - 0.005) ==> EvenHundredths(r)
  {
    var k := RoundHalfEven(x * 100.0);
    var r := k as real / 100.0;
    assert r * 100.0 == k as real;
    assert (r * 100.0).Floor == k;
    assert r == x + 0.005 ==> k as real == x * 100.0 + 0.5;
    assert r == x - 0.005 ==> k as real == x * 100.0 - 0.5;
    r
  }

  /** The contract of Round2 determines its result: a hundredth within 0.005
      of x, and an even one when x is halfway between two hundredths. */
  lemma Round2Unique(x: real, r: real)
    requires IsHundredth(r)
    requires x - 0.005 <= r <= x + 0.005
    requires (r == x + 0.005 || r == x - 0.005) ==> EvenHundredths(r)
    ensures Round2(x) == r
  {
    var j := (r * 100.0).Floor;
    assert j as real == r * 100.0;
    RoundHalfEvenUnique(x * 100.0, j);
  }

  /** A whole number of hundredths is left as it is by Round2. */
  lemma Round2Idempotent(x: real)
    requires IsHundredth(x)
    ensures Round2(x) == x
  {
  }

  /** Round2 is monotone: a larger amount never rounds to a smaller lot. */
  lemma Round2Monotone(x: real, y: real)
    requires x <= y
    ensures Round2(x) <= Round2(y)
  {
    RoundHalfEvenMonotone(x * 100.0, y * 100.0);
  }

  /** Rounding a non-negative amount never gives a negative one. */
  lemma Round2NonNegative(x: real)
    requires 0.0 <= x
    ensures 0.0 <= Round2(x)
  {
  }

  /** The money put at risk: risk_pct percent of the balance. */
  function RiskAmount(balance: real, riskPct: real): (risk: real)
    ensures risk * 100.0 == balance * riskPct
    ensures 0.0 <= balance && 0.0 <= riskPct ==> 0.0 <= risk
  {
    balance * (riskPct / 100.0)
  }

  /** The lot before rounding: the risk amount divided by the money one lot
      loses when the stop loss is hit. */
  function ExactLot(balance: real, riskPct: real, stopLossPips: real, pipValue: real): real
    requires stopLossPips * pipValue != 0.0
  {
    RiskAmount(balance, riskPct) / (stopLossPips * pipValue)
  }

  /** calculate_lot_size. The source divides without a guard, so a zero stop
      distance times pip value is excluded here. */
  function CalculateLotSize(balance: real, riskPct: real, stopLossPips: real, pipValue: real): (lot: real)
    requires stopLossPips * pipValue != 0.0
    ensures IsHundredth(lot)
    ensures ExactLot(balance, riskPct, stopLossPips, pipValue) - 0.005 <= lot
    ensures lot <= ExactLot(balance, riskPct, stopLossPips, pipValue) + 0.005
    ensures (lot == ExactLot(balance, riskPct, stopLossPips, pipValue) + 0.005 ||
             lot == ExactLot(balance, riskPct, stopLossPips, pipValue) - 0.005) ==> EvenHundredths(lot)
  {
    Round2(RiskAmount(balance, riskPct) / (stopLossPips * pipValue))
  }

  /** With a non-negative balance and risk and a positive stop distance and
      pip value, the lot is never negative. */
  lemma LotSizeNonNegative(balance: real, riskPct: real, stopLossPips: real, pipValue: real)
    requires 0.0 <= balance && 0.0 <= riskPct
    requires 0.0 < stopLossPips && 0.0 < pipValue
    ensures 0.0 <= CalculateLotSize(balance, riskPct, stopLossPips, pipValue)
  {
    assert 0.0 < stopLossPips * pipValue;
    Round2NonNegative(ExactLot(balance, riskPct, stopLossPips, pipValue));
  }

  /** The unrounded lot grows with the balance. */
  lemma ExactLotMonotoneInBalance(b1: real, b2: real, riskPct: real, stopLossPips: real, pipValue: real)
    requires b1 <= b2 && 0.0 <= riskPct
    requires 0.0 < stopLossPips && 0.0 < pipValue
    ensures ExactLot(b1, riskPct, stopLossPips, pipValue) <= ExactLot(b2, riskPct, stopLossPips, pipValue)
  {
  }

  /** The unrounded lot grows with the risk percentage. */
  lemma ExactLotMonotoneInRisk(balance: real, r1: real, r2: real, stopLossPips: real, pipValue: real)
    requires 0.0 <= balance && r1 <= r2
    requires 0.0 < stopLossPips && 0.0 < pipValue
    ensures ExactLot(balance, r1, stopLossPips, pipValue) <= ExactLot(balance, r2, stopLossPips, pipValue)
  {
    var d := stopLossPips * pipValue;
    assert 0.0 < d;
    var a1, a2 := RiskAmount(balance, r1), RiskAmount(balance, r2);
    assert a1 <= a2 by {
      assert balance * r1 <= balance * r2;
    }
    assert a1 / d <= a2 / d;
  }


  /** After rounding the lot still grows with the balance. */
  lemma LotSizeMonotoneInBalance(b1: real, b2: real, riskPct: real, stopLossPips: real, pipValue: real)
    requires b1 <= b2 && 0.0 <= riskPct
    requires 0.0 < stopLossPips && 0.0 < pipValue
    ensures CalculateLotSize(b1, riskPct, stopLossPips, pipValue) <= CalculateLotSize(b2, riskPct, stopLossPips, pipValue)
  {
    ExactLotMonotoneInBalance(b1, b2, riskPct, stopLossPips, pipValue);
    Round2Monotone(ExactLot(b1, riskPct, stopLossPips, pipValue), ExactLot(b2, riskPct, stopLossPips, pipValue));
  }

  /** A request with balance 5000 (the balance in the React fetch example):
      1.5% is 75, and over a 50-pip stop at pip value 1 that is a lot of 1.50. */
  lemma LotSizeExample()
    ensures CalculateLotSize(5000.0, 1.5, 50.0, 1.0) == 1.5
  {
  }

  /** A small balance rounds to a lot of zero: 1.5% of 10 over a 50-pip stop
      is 0.003, which rounds to 0.00. The source does not stop at a zero lot. */
  lemma LotSizeRoundsToZero()
    ensures CalculateLotSize(10.0, 1.5, 50.0, 1.0) == 0.0
  {
  }
}
