/**
 * The payment panel of the detail view, computed over real numbers: 30% down,
 * the rest borrowed at 8% a year, repaid in equal monthly instalments over
 * the chosen tenure.
 */
module Financing {

  const DownPaymentShare: real := 0.3
  const MonthlyRate: real := 0.08 / 12.0

  function Pow(x: real, k: nat): real {
    if k == 0 then 1.0 else x * Pow(x, k - 1)
  }

  lemma MulLeftMono(c: real, a: real, b: real)
    requires c >= 0.0 && a >= b
    ensures c * a >= c * b
  {
  }

  lemma MulCancel(x: real, y: real, d: real)
    requires d > 0.0 && x * d >= y * d
    ensures x >= y
  {
  }

  /** Compound growth at a non-negative rate is at least linear (Bernoulli's inequality). */
  lemma {:induction false} PowAtLeastLinear(r: real, k: nat)
    requires r >= 0.0
    ensures Pow(1.0 + r, k) >= 1.0 + k as real * r
  {
    if k > 0 {
      PowAtLeastLinear(r, k - 1);
      var p, kk := Pow(1.0 + r, k - 1), (k - 1) as real;
      var b := 1.0 + kk * r;
      assert r * p >= r * b by { MulLeftMono(r, p, b); }
      assert r * b >= r by {
        assert r * b == r + r * (kk * r);
        MulLeftMono(r, kk, 0.0);
        MulLeftMono(r, kk * r, 0.0);
      }
      calc {
        Pow(1.0 + r, k);
        p + r * p;
      >= b + r;
        { assert kk + 1.0 == k as real; }
        1.0 + k as real * r;
      }
    }
  }

  /** Compound growth at a non-negative rate never shrinks. */
  lemma PowMonotone(r: real, k: nat)
    requires r >= 0.0 && k > 0
    ensures Pow(1.0 + r, k) >= Pow(1.0 + r, k - 1)
  {
    PowAtLeastLinear(r, k - 1);
    MulLeftMono(r, Pow(1.0 + r, k - 1), 0.0);
  }

  /** What compounding adds over `k` months is at most `k` months of interest on the final amount. */
  lemma {:induction false} PowGain(r: real, k: nat)
    requires r >= 0.0
    ensures Pow(1.0 + r, k) - 1.0 <= k as real * r * Pow(1.0 + r, k)
  {
    if k > 0 {
      PowGain(r, k - 1);
      PowMonotone(r, k);
      PowAtLeastLinear(r, k - 1);
      var p, p', kk := Pow(1.0 + r, k - 1), Pow(1.0 + r, k), (k - 1) as real;
      assert p' == p + r * p;
      MulLeftMono(r, kk, 0.0);
      MulLeftMono(kk * r, p', p);
      assert k as real * r * p' == kk * r * p' + r * p';
      MulLeftMono(r, p', p);
      assert p - 1.0 <= kk * r * p;
      assert p' - 1.0 == r * p + (p - 1.0);
      assert kk * r * p' >= kk * r * p;
      assert r * p' >= r * p;
    }
  }

  /**
   * The equal monthly instalment that repays `loan` over `months` months:
   * `loan * i * (1 + i)^months / ((1 + i)^months - 1)` with the monthly rate `i`.
   */
  function Instalment(loan: real, months: nat): real
    requires months > 0
  {
    var g := Pow(1.0 + MonthlyRate, months);
    PowAtLeastLinear(MonthlyRate, months);
    loan * MonthlyRate * g / (g - 1.0)
  }

  /**
   * The instalment pays at least each month's interest, and over the term at
   * least the whole loan is paid back.
   */
  lemma InstalmentCoversLoan(loan: real, months: nat)
    requires loan >= 0.0 && months > 0
    ensures Instalment(loan, months) >= loan * MonthlyRate
    ensures Instalment(loan, months) * months as real >= loan
  {
    var g := Pow(1.0 + MonthlyRate, months);
    PowAtLeastLinear(MonthlyRate, months);
    PowGain(MonthlyRate, months);
    var d, e, m := g - 1.0, Instalment(loan, months), months as real;
    assert d > 0.0;
    assert e * d == loan * MonthlyRate * g;
    assert e * d == loan * MonthlyRate * d + loan * MonthlyRate;
    MulLeftMono(loan, MonthlyRate, 0.0);
    MulCancel(e, loan * MonthlyRate, d);
    assert (e * m) * d == loan * (m * MonthlyRate * g);
    MulLeftMono(loan, m * MonthlyRate * g, d);
    MulCancel(e * m, loan, d);
  }

  /** The figures of the payment panel; nothing is rounded here. */
  datatype Quote = Quote(downPayment: real, loanAmount: real, months: nat, emi: real)

  /**
   * The quote for a listing price and a tenure in years (offered: 10, 20, 30):
   * the down payment and the loan make up the price, and the instalment
   * repays at least the loan over the term.
   */
  function QuoteFor(price: nat, tenureYears: nat): (q: Quote)
    requires tenureYears > 0
    ensures q.downPayment + q.loanAmount == price as real
    ensures q.loanAmount == (1.0 - DownPaymentShare) * price as real
    ensures q.months == 12 * tenureYears
    ensures q.emi * q.months as real >= q.loanAmount
  {
    var down := price as real * DownPaymentShare;
    var loan := price as real - down;
    InstalmentCoversLoan(loan, tenureYears * 12);
    Quote(down, loan, tenureYears * 12, Instalment(loan, tenureYears * 12))
  }
}
