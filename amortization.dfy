/**
 * The level monthly payment the three DTI estimates use: a 6% annual rate
 * compounded monthly, `P·r(1+r)^n / ((1+r)^n − 1)` with `r = 0.06/12`.
 * Powers are exact; the model proves that the payment pays the loan off in
 * exactly `n` months and bounds the 30-year payment.
 */
module Amortization {
  import opened Wrappers

  function Pow(x: real, n: nat): real {
    if n == 0 then 1.0 else x * Pow(x, n - 1)
  }

  /** A positive base gives a positive power. */
  lemma {:induction false} PowPositive(x: real, n: nat)
    requires x > 0.0
    ensures Pow(x, n) > 0.0
  {
    if n > 0 {
      PowPositive(x, n - 1);
      MulPositive(x, Pow(x, n - 1));
    }
  }

  lemma {:induction false} PowAdd(x: real, a: nat, b: nat)
    ensures Pow(x, a + b) == Pow(x, a) * Pow(x, b)
  {
    if a > 0 {
      PowAdd(x, a - 1, b);
      assert Pow(x, a + b) == x * Pow(x, (a - 1) + b);
      MulAssoc(x, Pow(x, a - 1), Pow(x, b));
    }
  }

  lemma MulAssoc(x: real, y: real, z: real)
    ensures x * (y * z) == (x * y) * z
  {
  }

  /** `x ** n == (x ** a) ** b` for `n == a * b`. */
  lemma {:induction false} PowMul(x: real, a: nat, b: nat, n: nat)
    requires n == a * b
    ensures Pow(x, n) == Pow(Pow(x, a), b)
  {
    if b > 0 {
      MulStep(a, b);
      var y := Pow(x, a);
      PowMul(x, a, b - 1, n - a);
      PowAdd(x, a, n - a);
      calc {
        Pow(x, n);
        Pow(x, a + (n - a));
        y * Pow(x, n - a);
        y * Pow(y, b - 1);
        Pow(y, b);
      }
    }
  }

  lemma MulStep(a: nat, b: nat)
    requires b > 0
    ensures a * b == a + a * (b - 1)
  {
  }

  lemma MulNonNegative(a: real, b: real)
    requires a >= 0.0 && b >= 0.0
    ensures a * b >= 0.0
  {
  }

  lemma MulPositive(a: real, b: real)
    requires a > 0.0 && b > 0.0
    ensures a * b > 0.0
  {
  }

  lemma ReciprocalAntitone(a: real, b: real)
    requires 0.0 < a <= b
    ensures 1.0 / b <= 1.0 / a
  {
    MulPositive(a, b);
    assert 1.0 / a - 1.0 / b == (b - a) / (a * b);
  }

  lemma {:induction false} PowMono(x: real, y: real, n: nat)
    requires 0.0 <= x <= y
    ensures 0.0 <= Pow(x, n) <= Pow(y, n)
  {
    if n > 0 {
      PowMono(x, y, n - 1);
      var px, py := Pow(x, n - 1), Pow(y, n - 1);
      MulNonNegative(x, px);
      MulNonNegative(y - x, px);
      MulNonNegative(y, py - px);
      assert Pow(y, n) - Pow(x, n) == (y - x) * px + y * (py - px);
    }
  }

  /** A base above one raised to a positive power stays above one. */
  lemma {:induction false} PowAboveOne(x: real, n: nat)
    requires x > 1.0
    ensures n > 0 ==> Pow(x, n) > 1.0
    ensures Pow(x, n) >= 1.0
  {
    if n > 0 {
      PowAboveOne(x, n - 1);
      assert x * Pow(x, n - 1) >= Pow(x, n - 1);
    }
  }

  /** Python's `x ** n` for an integer exponent (`x` is never zero here). */
  function IntPow(x: real, n: int): real
    requires x > 0.0
  {
    if n >= 0 then Pow(x, n) else PowPositive(x, -n); 1.0 / Pow(x, -n)
  }

  /** IntPow equals one exactly at exponent zero when the base exceeds one. */
  lemma IntPowIsOne(x: real, n: int)
    requires x > 1.0
    ensures IntPow(x, n) == 1.0 <==> n == 0
  {
    if n > 0 {
      PowAboveOne(x, n);
    } else if n < 0 {
      PowAboveOne(x, -n);
      assert 1.0 / Pow(x, -n) < 1.0;
    }
  }

  /** `0.06 / 12`, the monthly rate all three estimates assume. */
  const MonthlyRate: real := 0.06 / 12.0

  /** `(1 + rate) ** n`. */
  function Growth(n: int): real {
    IntPow(1.0 + MonthlyRate, n)
  }

  /**
   * `principal * (rate * (1 + rate) ** n) / ((1 + rate) ** n - 1)`. The
   * rate is a positive constant, so the `rate > 0` test in the callers always
   * takes this branch. Python divides by zero when `n` is zero.
   */
  function Payment(principal: real, n: int): (r: Result<real>)
    ensures r.Err? <==> n == 0
    ensures r.Err? ==> r.error == ZeroDivisionError
    ensures r.Ok? ==> r.value * (Growth(n) - 1.0) == principal * MonthlyRate * Growth(n)
  {
    IntPowIsOne(1.0 + MonthlyRate, n);
    if Growth(n) - 1.0 == 0.0 then Err(ZeroDivisionError)
    else Ok(principal * (MonthlyRate * Growth(n)) / (Growth(n) - 1.0))
  }

  /** The balance owed after `k` months: interest accrues, then `payment` is paid. */
  function Balance(principal: real, payment: real, k: nat): real {
    if k == 0 then principal
    else Balance(principal, payment, k - 1) * (1.0 + MonthlyRate) - payment
  }

  lemma {:induction false} BalanceClosedForm(principal: real, payment: real, k: nat)
    ensures Balance(principal, payment, k) * MonthlyRate
         == principal * Pow(1.0 + MonthlyRate, k) * MonthlyRate - payment * (Pow(1.0 + MonthlyRate, k) - 1.0)
  {
    if k > 0 {
      BalanceClosedForm(principal, payment, k - 1);
      var g, p := 1.0 + MonthlyRate, Pow(1.0 + MonthlyRate, k - 1);
      var b := Balance(principal, payment, k - 1);
      calc {
        Balance(principal, payment, k) * MonthlyRate;
        (b * g - payment) * MonthlyRate;
        (b * MonthlyRate) * g - payment * MonthlyRate;
        (principal * p * MonthlyRate - payment * (p - 1.0)) * g - payment * MonthlyRate;
        principal * (g * p) * MonthlyRate - payment * (g * p - g + MonthlyRate);
        principal * Pow(g, k) * MonthlyRate - payment * (Pow(g, k) - 1.0);
      }
    }
  }

  /** The payment for a term of `n > 0` months leaves nothing owed after the last month. */
  lemma PaymentPaysOff(principal: real, n: nat)
    requires n > 0
    ensures Payment(principal, n).Ok?
    ensures Balance(principal, Payment(principal, n).value, n) == 0.0
  {
    var m := Payment(principal, n).value;
    BalanceClosedForm(principal, m, n);
    assert Growth(n) == Pow(1.0 + MonthlyRate, n);
    assert Balance(principal, m, n) * MonthlyRate == 0.0;
  }

  /** With a positive principal and term the payment exceeds the first month's interest. */
  lemma PaymentAboveInterest(principal: real, n: nat)
    requires principal > 0.0 && n > 0
    ensures Payment(principal, n).Ok?
    ensures Payment(principal, n).value > principal * MonthlyRate
  {
    PowAboveOne(1.0 + MonthlyRate, n);
    var g := Growth(n);
    assert g == Pow(1.0 + MonthlyRate, n) && g - 1.0 > 0.0;
    var m := Payment(principal, n).value;
    assert m * (g - 1.0) == principal * MonthlyRate * g;
    var d := m - principal * MonthlyRate;
    assert d * (g - 1.0) == principal * MonthlyRate;
  }

  lemma Growth10()
    ensures 1.0511 <= Pow(1.005, 10) <= 1.0512
  {
  }

  lemma Growth60()
    ensures 1.3485 <= Pow(1.0511, 6) && Pow(1.0512, 6) <= 1.3494
  {
  }

  lemma Growth360Bounds()
    ensures 6.0 <= Pow(1.3485, 6) && Pow(1.3494, 6) <= 6.1
  {
  }

  /** `1.005 ** 360` lies between 6.0 and 6.1. */
  lemma Growth360()
    ensures 6.0 <= Growth(360) <= 6.1
  {
    Growth10();
    Growth60();
    Growth360Bounds();
    PowMul(1.005, 10, 6, 60);
    PowMul(1.005, 60, 6, 360);
    assert Pow(1.005, 360) == Pow(Pow(Pow(1.005, 10), 6), 6);
    PowMono(1.0511, Pow(1.005, 10), 6);
    PowMono(Pow(1.005, 10), 1.0512, 6);
    PowMono(1.3485, Pow(1.005, 60), 6);
    PowMono(Pow(1.005, 60), 1.3494, 6);
  }

  /** The 30-year payment lies between 0.598% and 0.6% of the principal. */
  lemma ThirtyYearPayment(principal: real)
    requires principal >= 0.0
    ensures Payment(principal, 360).Ok?
    ensures 0.00598 * principal <= Payment(principal, 360).value <= 0.006 * principal
  {
    Growth360();
    var g := Growth(360);
    var m := Payment(principal, 360).value;
    assert m * (g - 1.0) == principal * 0.005 * g;
    var q := 1.0 / (g - 1.0);
    assert m == principal * 0.005 * (1.0 + q);
    ReciprocalAntitone(5.0, g - 1.0);
    ReciprocalAntitone(g - 1.0, 5.1);
    assert 1.0 / 5.1 >= 0.196;
    assert principal * 0.005 * (1.0 + q) <= principal * 0.005 * 1.2;
    assert principal * 0.005 * (1.0 + q) >= principal * 0.005 * 1.196;
  }
}
