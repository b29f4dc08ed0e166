/** The closed-form return calculators of the allocation engine: fixed
    deposit, bank savings, systematic investment plan (SIP) and metal ROI.
    All money arithmetic is over `real`; exponents are natural numbers. */
module Calculators {

  /** `b` raised to the natural power `n`. */
  function Pow(b: real, n: nat): real
  {
    if n == 0 then 1.0 else b * Pow(b, n - 1)
  }

  /** A balance after `periods` compounding steps, each step multiplying the
      running balance by `factor`: compound interest read period by period. */
  function Grow(balance: real, factor: real, periods: nat): real
    decreases periods
  {
    if periods == 0 then balance else Grow(balance * factor, factor, periods - 1)
  }

  /** The closed form `balance * factor^periods` is the period-by-period balance. */
  lemma {:induction false} GrowIsPow(balance: real, factor: real, periods: nat)
    ensures Grow(balance, factor, periods) == balance * Pow(factor, periods)
    decreases periods
  {
    if periods > 0 {
      GrowIsPow(balance * factor, factor, periods - 1);
      assert balance * factor * Pow(factor, periods - 1) == balance * (factor * Pow(factor, periods - 1));
    }
  }

  lemma {:induction false} PowOfOne(n: nat)
    ensures Pow(1.0, n) == 1.0
  {
    if n > 0 {
      PowOfOne(n - 1);
    }
  }

  lemma {:induction false} PowAtLeastOne(b: real, n: nat)
    requires b >= 1.0
    ensures Pow(b, n) >= 1.0
  {
    if n > 0 {
      PowAtLeastOne(b, n - 1);
      var p := Pow(b, n - 1);
      assert b * p - p == (b - 1.0) * p;
      assert (b - 1.0) * p >= 0.0;
    }
  }

  /** The record returned for a lump-sum deposit (fixed deposit or bank savings). */
  datatype LumpSumReturn = LumpSumReturn(
    principal: real,
    rate: real,
    futureValue: real,
    roiPercent: real,
    profit: real)

  /** The percentage by which `invested` grew into `value`, as every
      calculator of the source computes it: `(value - invested) / invested * 100`. */
  function RoiPercent(invested: real, value: real): (roi: real)
    requires invested != 0.0
    ensures value == invested * (1.0 + roi / 100.0)
  {
    var roi := (value - invested) / invested * 100.0;
    assert invested * (1.0 + roi / 100.0) == invested + (value - invested);
    roi
  }

  /** The ROI and profit fields shared by the fixed-deposit and bank calculators. */
  function LumpSum(principal: real, ratePercent: real, futureValue: real): (r: LumpSumReturn)
    requires principal != 0.0
    ensures r.principal == principal && r.rate == ratePercent && r.futureValue == futureValue
    ensures r.futureValue == principal * (1.0 + r.roiPercent / 100.0)
    ensures r.profit == r.futureValue - principal
  {
    LumpSumReturn(principal, ratePercent, futureValue, RoiPercent(principal, futureValue), futureValue - principal)
  }

  /** `calc_fd_return`: annual compounding for `years` years. The ROI divides
      by the principal, so a zero principal raises in the source. */
  function FdReturn(principal: real, ratePercent: real, years: nat): (r: LumpSumReturn)
    requires principal != 0.0
    ensures r.principal == principal && r.rate == ratePercent
    ensures r.futureValue == Grow(principal, 1.0 + ratePercent / 100.0, years)
    ensures r.futureValue == principal * (1.0 + r.roiPercent / 100.0)
    ensures r.profit == r.futureValue - principal
  {
    GrowIsPow(principal, 1.0 + ratePercent / 100.0, years);
    LumpSum(principal, ratePercent, principal * Pow(1.0 + ratePercent / 100.0, years))
  }

  /** `calc_bank_return`: monthly compounding over `12 * years` months, or
      annual compounding when `monthlyCompound` is false. */
  function BankReturn(principal: real, ratePercent: real, years: nat, monthlyCompound: bool): (r: LumpSumReturn)
    requires principal != 0.0
    ensures r.principal == principal && r.rate == ratePercent
    ensures monthlyCompound ==> r.futureValue == Grow(principal, 1.0 + ratePercent / 12.0 / 100.0, 12 * years)
    ensures !monthlyCompound ==> r == FdReturn(principal, ratePercent, years)
    ensures r.futureValue == principal * (1.0 + r.roiPercent / 100.0)
    ensures r.profit == r.futureValue - principal
  {
    if monthlyCompound then
      var monthlyRate := ratePercent / 12.0 / 100.0;
      GrowIsPow(principal, 1.0 + monthlyRate, 12 * years);
      LumpSum(principal, ratePercent, principal * Pow(1.0 + monthlyRate, 12 * years))
    else
      LumpSum(principal, ratePercent, principal * Pow(1.0 + ratePercent / 100.0, years))
  }

  /** A fixed deposit at rate 0 earns nothing. */
  lemma FdZeroRate(principal: real, years: nat)
    requires principal != 0.0
    ensures FdReturn(principal, 0.0, years).futureValue == principal
    ensures FdReturn(principal, 0.0, years).roiPercent == 0.0
    ensures FdReturn(principal, 0.0, years).profit == 0.0
  {
    PowOfOne(years);
  }

  /** Bank savings at rate 0 earn nothing, with either compounding. */
  lemma BankZeroRate(principal: real, years: nat, monthlyCompound: bool)
    requires principal != 0.0
    ensures BankReturn(principal, 0.0, years, monthlyCompound).roiPercent == 0.0
  {
    PowOfOne(years);
    PowOfOne(12 * years);
  }

  /** A positive principal at a non-negative rate never loses value. */
  lemma FdNeverLoses(principal: real, ratePercent: real, years: nat)
    requires principal > 0.0 && ratePercent >= 0.0
    ensures FdReturn(principal, ratePercent, years).futureValue >= principal
    ensures FdReturn(principal, ratePercent, years).roiPercent >= 0.0
  {
    PowAtLeastOne(1.0 + ratePercent / 100.0, years);
    var p := Pow(1.0 + ratePercent / 100.0, years);
    assert principal * p - principal == principal * (p - 1.0);
  }

  /** `calc_fd_return(1000, 10)` with the default one year gives 1100, a 10% ROI. */
  lemma FdExample()
    ensures FdReturn(1000.0, 10.0, 1).futureValue == 1100.0
    ensures FdReturn(1000.0, 10.0, 1).roiPercent == 10.0
    ensures FdReturn(1000.0, 10.0, 1).profit == 100.0
  {
  }

  /** Balance of a SIP after `months` deposits of `amount`, each made at the
      start of a month and then grown by one month's interest. */
  function Deposits(amount: real, monthlyRate: real, months: nat): real
  {
    if months == 0 then 0.0 else (Deposits(amount, monthlyRate, months - 1) + amount) * (1.0 + monthlyRate)
  }

  /** The annuity-due closed form, multiplied out by the monthly rate. */
  lemma {:induction false} DepositsClosedForm(amount: real, monthlyRate: real, months: nat)
    ensures Deposits(amount, monthlyRate, months) * monthlyRate
         == amount * (Pow(1.0 + monthlyRate, months) - 1.0) * (1.0 + monthlyRate)
  {
    if months > 0 {
      DepositsClosedForm(amount, monthlyRate, months - 1);
      var d := Deposits(amount, monthlyRate, months - 1);
      var p := Pow(1.0 + monthlyRate, months - 1);
      var g := 1.0 + monthlyRate;
      assert d * monthlyRate == amount * (p - 1.0) * g;
      calc {
        Deposits(amount, monthlyRate, months) * monthlyRate;
        (d + amount) * g * monthlyRate;
        (d * monthlyRate + amount * monthlyRate) * g;
        (amount * (p - 1.0) * g + amount * monthlyRate) * g;
        { assert (p - 1.0) * g + monthlyRate == g * p - 1.0; }
        amount * (g * p - 1.0) * g;
      }
    }
  }

  /** Without interest the SIP balance is the sum of the deposits. */
  lemma {:induction false} DepositsAtZeroRate(amount: real, months: nat)
    ensures Deposits(amount, 0.0, months) == amount * months as real
  {
    if months > 0 {
      DepositsAtZeroRate(amount, months - 1);
    }
  }

  /** With a non-negative rate and a positive deposit, each month adds at least the deposit. */
  lemma {:induction false} DepositsAtLeastInvested(amount: real, monthlyRate: real, months: nat)
    requires amount > 0.0 && monthlyRate >= 0.0
    ensures Deposits(amount, monthlyRate, months) >= amount * months as real
  {
    if months > 0 {
      DepositsAtLeastInvested(amount, monthlyRate, months - 1);
      var d := Deposits(amount, monthlyRate, months - 1);
      assert (d + amount) * (1.0 + monthlyRate) == (d + amount) + (d + amount) * monthlyRate;
      assert d + amount >= 0.0;
    }
  }

  /** The source's future-value formula for an annuity due, with its special
      case for a zero monthly rate; it is the month-by-month balance. */
  function AnnuityDue(amount: real, monthlyRate: real, months: nat): (fv: real)
    ensures fv == Deposits(amount, monthlyRate, months)
  {
    if monthlyRate == 0.0 then
      DepositsAtZeroRate(amount, months);
      amount * months as real
    else
      DepositsClosedForm(amount, monthlyRate, months);
      var q := (Pow(1.0 + monthlyRate, months) - 1.0) / monthlyRate;
      assert q * monthlyRate == Pow(1.0 + monthlyRate, months) - 1.0;
      assert Deposits(amount, monthlyRate, months) * monthlyRate == amount * q * (1.0 + monthlyRate) * monthlyRate;
      amount * q * (1.0 + monthlyRate)
  }

  /** The record returned by the SIP calculator. */
  datatype SipReturn = SipReturn(
    monthlyAmount: real,
    totalInvested: real,
    annualRate: real,
    futureValue: real,
    roiPercent: real,
    profit: real)

  /** `calc_sip_return`: the future value of an annuity due of `months`
      deposits. The ROI divides by the total invested, so a zero deposit or
      zero months raises in the source. */
  function SipReturnOf(monthlyAmount: real, annualRatePercent: real, months: nat): (r: SipReturn)
    requires monthlyAmount != 0.0 && months > 0
    ensures r.monthlyAmount == monthlyAmount && r.annualRate == annualRatePercent
    ensures r.totalInvested == monthlyAmount * months as real
    ensures r.futureValue == Deposits(monthlyAmount, annualRatePercent / 12.0 / 100.0, months)
    ensures r.futureValue == r.totalInvested * (1.0 + r.roiPercent / 100.0)
    ensures r.profit == r.futureValue - r.totalInvested
  {
    var futureValue := AnnuityDue(monthlyAmount, annualRatePercent / 12.0 / 100.0, months);
    var totalInvested := monthlyAmount * months as real;
    SipReturn(monthlyAmount, totalInvested, annualRatePercent, futureValue,
              RoiPercent(totalInvested, futureValue), futureValue - totalInvested)
  }

  /** A SIP at rate 0 returns exactly what was invested. */
  lemma SipZeroRate(monthlyAmount: real, months: nat)
    requires monthlyAmount != 0.0 && months > 0
    ensures SipReturnOf(monthlyAmount, 0.0, months).futureValue == monthlyAmount * months as real
    ensures SipReturnOf(monthlyAmount, 0.0, months).roiPercent == 0.0
  {
    DepositsAtZeroRate(monthlyAmount, months);
  }

  /** Positive monthly deposits at a non-negative rate never lose value. */
  lemma SipNeverLoses(monthlyAmount: real, annualRatePercent: real, months: nat)
    requires monthlyAmount > 0.0 && annualRatePercent >= 0.0 && months > 0
    ensures SipReturnOf(monthlyAmount, annualRatePercent, months).futureValue
         >= SipReturnOf(monthlyAmount, annualRatePercent, months).totalInvested
    ensures SipReturnOf(monthlyAmount, annualRatePercent, months).roiPercent >= 0.0
  {
    var r := SipReturnOf(monthlyAmount, annualRatePercent, months);
    DepositsAtLeastInvested(monthlyAmount, annualRatePercent / 12.0 / 100.0, months);
    assert r.futureValue - r.totalInvested == r.totalInvested * (r.roiPercent / 100.0);
  }

  /** `calc_sip_return(1000, 12)` over the default 12 months: a 1% monthly
      rate grows 12000 invested to about 12809.33, an ROI of about 6.74%. */
  lemma SipExample()
    ensures 12809.32 <= SipReturnOf(1000.0, 12.0, 12).futureValue <= 12809.34
    ensures 6.744 <= SipReturnOf(1000.0, 12.0, 12).roiPercent <= 6.745
  {
    var r := SipReturnOf(1000.0, 12.0, 12);
    assert Deposits(1000.0, 0.01, 12) == 12809.328043328941786781301;
  }

  /** `calc_metal_roi`: the percentage change from `baseline` to `current`;
      0 when the baseline is 0. */
  function MetalRoi(current: real, baseline: real): (roi: real)
    ensures baseline == 0.0 ==> roi == 0.0
    ensures baseline != 0.0 ==> current == baseline * (1.0 + roi / 100.0)
  {
    if baseline == 0.0 then 0.0 else RoiPercent(baseline, current)
  }

  /** `calc_metal_roi(6230.5, 5930.0)` is about 5.067%. */
  lemma MetalRoiExample()
    ensures 5.067 <= MetalRoi(6230.5, 5930.0) <= 5.068
  {
  }
}
