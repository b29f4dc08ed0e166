/** The allocation engine (`recommend_allocation`): a risk template of five
    weights, unselected deposit instruments zeroed, the weights rescaled to
    100 and rounded to one decimal, then a projected value per instrument
    and a total expected ROI. */
module Allocation {
  import opened Results
  import Calculators

  /** The five instruments of every portfolio. */
  datatype Instrument = FD | Bank | SIP | Gold | Silver

  /** A weight per instrument, in the source's dictionary order. */
  datatype Weights = Weights(fd: real, bank: real, sip: real, gold: real, silver: real) {

    function Of(i: Instrument): real
    {
      match i
      case FD => fd
      case Bank => bank
      case SIP => sip
      case Gold => gold
      case Silver => silver
    }

    function Sum(): real
    {
      fd + bank + sip + gold + silver
    }
  }

  /** Why `recommend_allocation` raises: an unknown risk key (`KeyError`) or
      a zero investable amount (`ZeroDivisionError`). */
  datatype AllocError = UnknownRisk(key: string) | DivisionByZero

  const DefaultRisk: string := "medium"
  const DefaultInvestable: real := 100000.0
  const DefaultFdRate: real := 6.5
  const DefaultBankRate: real := 3.5
  const DefaultSipRate: real := 12.0
  const DefaultMetalPrice: real := 5000.0
  const DefaultMetalSource: string := "fallback"

  /** The risk templates, keyed by the user's risk preference. */
  function Template(key: string): (t: Result<Weights, AllocError>)
    ensures t.Ok? <==> key in {"low", "medium", "high"}
    ensures t.Err? ==> t.error == UnknownRisk(key)
    ensures t.Ok? ==> t.value.Sum() == 100.0 && t.value.gold + t.value.silver == 20.0
    ensures t.Ok? ==> forall i :: t.value.Of(i) >= 5.0
  {
    if key == "low" then Ok(Weights(45.0, 25.0, 10.0, 15.0, 5.0))
    else if key == "medium" then Ok(Weights(25.0, 15.0, 40.0, 15.0, 5.0))
    else if key == "high" then Ok(Weights(10.0, 10.0, 60.0, 15.0, 5.0))
    else Err(UnknownRisk(key))
  }

  /** Keeps a deposit instrument's template weight only when its name is in
      the selected list; Gold and Silver are always kept. */
  function Select(t: Weights, selected: seq<string>): Weights
  {
    Weights(
      if "FD" in selected then t.fd else 0.0,
      if "Bank" in selected then t.bank else 0.0,
      if "SIP" in selected then t.sip else 0.0,
      t.gold,
      t.silver)
  }

  /** Python's `round(x, 1)`, on exact reals: to the nearest tenth, ties to
      the even tenth. */
  function Round1(x: real): (r: real)
    ensures -0.05 <= r - x <= 0.05
    ensures x >= 0.0 ==> r >= 0.0
    ensures (r * 10.0).Floor as real == r * 10.0
  {
    var y := x * 10.0;
    var f := y.Floor;
    var d := y - f as real;
    var n := if d < 0.5 then f else if d > 0.5 then f + 1 else if f % 2 == 0 then f else f + 1;
    n as real / 10.0
  }

  /** A weight's share of `total`, scaled to 100 (`weight * scale_factor`). */
  function Share(weight: real, total: real): real
    requires total > 0.0
  {
    weight * (100.0 / total)
  }

  /** Rescales the weights so that they add up to 100 and rounds each to one
      decimal; weights adding up to 0 are left alone. */
  function Normalize(w: Weights): Weights
  {
    var total := w.Sum();
    if total > 0.0 then
      Weights(Round1(Share(w.fd, total)), Round1(Share(w.bank, total)), Round1(Share(w.sip, total)),
              Round1(Share(w.gold, total)), Round1(Share(w.silver, total)))
    else w
  }

  /** The user fields the engine reads. `selectedInstruments` is the decoded
      JSON list (an absent field decodes to the empty list); an absent risk
      preference or investable amount is `None`. */
  datatype UserData = UserData(
    riskPreference: Option<string>,
    selectedInstruments: seq<string>,
    investableAmount: Option<real>)

  /** The fields of one entry of `current_prices` the engine reads. */
  datatype PriceFields = PriceFields(price: Option<real>, source: Option<string>)

  /** The projection of a deposit instrument. */
  datatype Projection = Projection(rate: real, amount: real, projectedValue: real, roiPercent: real)

  /** The projection of a metal. */
  datatype MetalProjection = MetalProjection(
    price: real,
    source: string,
    amount: real,
    projectedValue: real,
    roiPercent: real)

  /** `expected_returns`: a deposit instrument's entry is absent when its
      weight is not positive; the metals are always present. */
  datatype ExpectedReturns = ExpectedReturns(
    fd: Option<Projection>,
    bank: Option<Projection>,
    sip: Option<Projection>,
    gold: MetalProjection,
    silver: MetalProjection,
    totalExpectedRoiPercent: real)

  datatype Recommendation = Recommendation(portfolio: Weights, expectedReturns: ExpectedReturns)

  /** The amount invested in an instrument of weight `percent`. */
  function Amount(investable: real, percent: real): (a: real)
    ensures investable != 0.0 && percent != 0.0 ==> a != 0.0
  {
    investable * (percent / 100.0)
  }

  function RateOr(rates: map<string, real>, name: string, default: real): real
  {
    if name in rates then rates[name] else default
  }

  function FdProjection(amount: real, rates: map<string, real>): Projection
    requires amount != 0.0
  {
    var rate := RateOr(rates, "FD", DefaultFdRate);
    var r := Calculators.FdReturn(amount, rate, 1);
    Projection(rate, amount, r.futureValue, r.roiPercent)
  }

  function BankProjection(amount: real, rates: map<string, real>): Projection
    requires amount != 0.0
  {
    var rate := RateOr(rates, "Bank", DefaultBankRate);
    var r := Calculators.BankReturn(amount, rate, 1, true);
    Projection(rate, amount, r.futureValue, r.roiPercent)
  }

  /** The SIP is fed one twelfth of its amount per month for twelve months. */
  function SipProjection(amount: real, rates: map<string, real>): Projection
    requires amount != 0.0
  {
    var rate := RateOr(rates, "SIP", DefaultSipRate);
    var r := Calculators.SipReturnOf(amount / 12.0, rate, 12);
    Projection(rate, amount, r.futureValue, r.roiPercent)
  }

  /** A metal's projection: the baseline is simulated as 95% of the current
      price, and a missing price or source takes its default. */
  function MetalProjectionOf(key: string, amount: real, prices: map<string, PriceFields>): MetalProjection
  {
    var fields := if key in prices then prices[key] else PriceFields(None, None);
    var price := fields.price.GetOr(DefaultMetalPrice);
    var roi := Calculators.MetalRoi(price, price * 0.95);
    MetalProjection(price, fields.source.GetOr(DefaultMetalSource), amount, amount * (1.0 + roi / 100.0), roi)
  }

  function ValueOr0(p: Option<Projection>): real
  {
    if p.Some? then p.value.projectedValue else 0.0
  }

  /** The projected value of the whole portfolio. */
  function PortfolioValue(e: ExpectedReturns): real
  {
    ValueOr0(e.fd) + ValueOr0(e.bank) + ValueOr0(e.sip) + e.gold.projectedValue + e.silver.projectedValue
  }

  /** The total expected ROI is the growth of the portfolio's projected
      value over the investable amount. */
  predicate TotalRoiMatches(e: ExpectedReturns, investable: real)
  {
    investable * (1.0 + e.totalExpectedRoiPercent / 100.0) == PortfolioValue(e)
  }

  /** The expected returns of the final weights `w`. */
  function Project(w: Weights, investable: real, prices: map<string, PriceFields>, rates: map<string, real>): (e: ExpectedReturns)
    requires investable != 0.0
    ensures e.fd.Some? <==> w.fd > 0.0
    ensures e.bank.Some? <==> w.bank > 0.0
    ensures e.sip.Some? <==> w.sip > 0.0
    ensures w.fd > 0.0 ==> e.fd == Some(FdProjection(Amount(investable, w.fd), rates))
    ensures w.bank > 0.0 ==> e.bank == Some(BankProjection(Amount(investable, w.bank), rates))
    ensures w.sip > 0.0 ==> e.sip == Some(SipProjection(Amount(investable, w.sip), rates))
    ensures e.gold == MetalProjectionOf("gold", Amount(investable, w.gold), prices)
    ensures e.silver == MetalProjectionOf("silver", Amount(investable, w.silver), prices)
    ensures TotalRoiMatches(e, investable)
  {
    var fd := if w.fd > 0.0 then Some(FdProjection(Amount(investable, w.fd), rates)) else None;
    var bank := if w.bank > 0.0 then Some(BankProjection(Amount(investable, w.bank), rates)) else None;
    var sip := if w.sip > 0.0 then Some(SipProjection(Amount(investable, w.sip), rates)) else None;
    var gold := MetalProjectionOf("gold", Amount(investable, w.gold), prices);
    var silver := MetalProjectionOf("silver", Amount(investable, w.silver), prices);
    WithTotalRoi(fd, bank, sip, gold, silver, investable)
  }

  /** Assembles the expected returns, with the total ROI of the portfolio's
      projected value over the investable amount. */
  function WithTotalRoi(fd: Option<Projection>, bank: Option<Projection>, sip: Option<Projection>,
                        gold: MetalProjection, silver: MetalProjection, investable: real): (e: ExpectedReturns)
    requires investable != 0.0
    ensures e.fd == fd && e.bank == bank && e.sip == sip && e.gold == gold && e.silver == silver
    ensures TotalRoiMatches(e, investable)
  {
    var total := ValueOr0(fd) + ValueOr0(bank) + ValueOr0(sip) + gold.projectedValue + silver.projectedValue;
    ExpectedReturns(fd, bank, sip, gold, silver, Calculators.RoiPercent(investable, total))
  }

  /** The risk key the engine looks up. */
  function RiskKey(user: UserData): string
  {
    user.riskPreference.GetOr(DefaultRisk)
  }

  /** The weights before rescaling, when the risk key is known. */
  function BaseWeights(user: UserData): Result<Weights, AllocError>
  {
    match Template(RiskKey(user))
    case Err(e) => Err(e)
    case Ok(t) => Ok(Select(t, user.selectedInstruments))
  }

  /** The final weights: the selected base weights, rescaled and rounded. */
  function FinalWeights(user: UserData): Result<Weights, AllocError>
  {
    match BaseWeights(user)
    case Err(e) => Err(e)
    case Ok(base) => Ok(Normalize(base))
  }

  /** `recommend_allocation`. */
  function RecommendAllocation(user: UserData, prices: map<string, PriceFields>, rates: map<string, real>): (r: Result<Recommendation, AllocError>)
    ensures r.Err? && r.error.UnknownRisk? <==> RiskKey(user) !in {"low", "medium", "high"}
    ensures r.Err? && r.error.UnknownRisk? ==> r.error == UnknownRisk(RiskKey(user))
    ensures r.Err? && r.error == DivisionByZero
        <==> RiskKey(user) in {"low", "medium", "high"} && user.investableAmount.GetOr(DefaultInvestable) == 0.0
    ensures r.Ok? ==> FinalWeights(user) == Ok(r.value.portfolio)
    ensures r.Ok? ==> r.value.expectedReturns
                      == Project(r.value.portfolio, user.investableAmount.GetOr(DefaultInvestable), prices, rates)
  {
    match FinalWeights(user)
    case Err(e) => Err(e)
    case Ok(w) =>
      var investable := user.investableAmount.GetOr(DefaultInvestable);
      if investable == 0.0 then Err(DivisionByZero)
      else Ok(Recommendation(w, Project(w, investable, prices, rates)))
  }

  /** A missing risk preference is read as "medium", and any key other than
      "low", "medium" or "high" raises. */
  lemma RiskPreferenceRule(user: UserData)
    ensures user.riskPreference.None? ==> BaseWeights(user) == BaseWeights(user.(riskPreference := Some("medium")))
    ensures BaseWeights(user).Err? <==> user.riskPreference.Some? && user.riskPreference.value !in {"low", "medium", "high"}
    ensures BaseWeights(user).Err? ==> BaseWeights(user).error == UnknownRisk(user.riskPreference.value)
  {
  }

  /** Rounding never moves a weight of at least 5 to 0, since the total is at most 100. */
  lemma ScaledWeightPositive(weight: real, total: real)
    requires weight >= 5.0 && 0.0 < total <= 100.0
    ensures Round1(Share(weight, total)) > 0.0
  {
    assert 100.0 / total >= 1.0;
    assert weight * (100.0 / total) >= weight;
  }

  /** The exact shares add up to 100. */
  lemma SharesSumTo100(w: Weights)
    requires w.Sum() > 0.0
    ensures Share(w.fd, w.Sum()) + Share(w.bank, w.Sum()) + Share(w.sip, w.Sum())
          + Share(w.gold, w.Sum()) + Share(w.silver, w.Sum()) == 100.0
  {
    assert w.Sum() * (100.0 / w.Sum()) == 100.0;
  }

  /** Five values adding up to 100 still add up to 100, within 0.25, once each is rounded. */
  lemma RoundedSum(a: real, b: real, c: real, d: real, e: real)
    requires a + b + c + d + e == 100.0
    ensures 99.75 <= Round1(a) + Round1(b) + Round1(c) + Round1(d) + Round1(e) <= 100.25
  {
  }

  /** The rescaled, rounded weights add up to 100 within the five roundings
      of at most 0.05 each. */
  lemma NormalizeSumsTo100(w: Weights)
    requires w.Sum() > 0.0
    ensures 99.75 <= Normalize(w).Sum() <= 100.25
  {
    SharesSumTo100(w);
    RoundedSum(Share(w.fd, w.Sum()), Share(w.bank, w.Sum()), Share(w.sip, w.Sum()),
               Share(w.gold, w.Sum()), Share(w.silver, w.Sum()));
  }

  /** The base weights add up to between 20 and 100: Gold and Silver bring 20
      in every template, so the rescaling branch always runs. */
  lemma BaseWeightsTotal(user: UserData)
    requires BaseWeights(user).Ok?
    ensures 20.0 <= BaseWeights(user).value.Sum() <= 100.0
  {
  }

  /** Every final weight is its share of the selected base weights, scaled to
      100 and rounded to one decimal, so within 0.05 of the exact share. */
  lemma WeightsAreRoundedShares(user: UserData)
    requires FinalWeights(user).Ok?
    ensures var base := BaseWeights(user).value;
            && 20.0 <= base.Sum() <= 100.0
            && FinalWeights(user).value == Normalize(base)
            && (forall i :: Normalize(base).Of(i) == Round1(Share(base.Of(i), base.Sum())))
            && (forall i :: -0.05 <= Normalize(base).Of(i) - Share(base.Of(i), base.Sum()) <= 0.05)
  {
    BaseWeightsTotal(user);
  }

  /** The final weights add up to 100 within 0.25. */
  lemma WeightsSumTo100(user: UserData)
    requires FinalWeights(user).Ok?
    ensures 99.75 <= FinalWeights(user).value.Sum() <= 100.25
  {
    BaseWeightsTotal(user);
    NormalizeSumsTo100(BaseWeights(user).value);
  }

  /** Before rescaling, a selected deposit instrument and both metals carry
      exactly their template weight, and an unselected deposit instrument
      carries 0. */
  lemma TemplateWeightsKept(user: UserData)
    requires BaseWeights(user).Ok?
    ensures var t := Template(RiskKey(user)).value;
            var b := BaseWeights(user).value;
            var selected := user.selectedInstruments;
            && b.gold == t.gold && b.silver == t.silver
            && b.fd == (if "FD" in selected then t.fd else 0.0)
            && b.bank == (if "Bank" in selected then t.bank else 0.0)
            && b.sip == (if "SIP" in selected then t.sip else 0.0)
  {
  }

  /** Every weight kept in the final portfolio is its template weight
      rescaled by the selected total and rounded to one decimal. */
  lemma TemplateShares(user: UserData)
    requires FinalWeights(user).Ok?
    ensures var w := FinalWeights(user).value;
            var t := Template(RiskKey(user)).value;
            var total := BaseWeights(user).value.Sum();
            var selected := user.selectedInstruments;
            && total > 0.0
            && ("FD" in selected ==> w.fd == Round1(Share(t.fd, total)))
            && ("Bank" in selected ==> w.bank == Round1(Share(t.bank, total)))
            && ("SIP" in selected ==> w.sip == Round1(Share(t.sip, total)))
            && w.gold == Round1(Share(t.gold, total)) && w.silver == Round1(Share(t.silver, total))
  {
    var base := BaseWeights(user).value;
    WeightsAreRoundedShares(user);
    TemplateWeightsKept(user);
    assert FinalWeights(user).value.fd == Normalize(base).Of(FD);
    assert FinalWeights(user).value.bank == Normalize(base).Of(Bank);
    assert FinalWeights(user).value.sip == Normalize(base).Of(SIP);
    assert FinalWeights(user).value.gold == Normalize(base).Of(Gold);
    assert FinalWeights(user).value.silver == Normalize(base).Of(Silver);
  }

  /** A deposit instrument has a positive final weight exactly when the user
      selected it, and weight 0 otherwise; Gold and Silver always have a
      positive weight. */
  lemma SelectionRule(user: UserData)
    requires FinalWeights(user).Ok?
    ensures var w := FinalWeights(user).value;
            var selected := user.selectedInstruments;
            && ("FD" in selected ==> w.fd > 0.0) && ("FD" !in selected ==> w.fd == 0.0)
            && ("Bank" in selected ==> w.bank > 0.0) && ("Bank" !in selected ==> w.bank == 0.0)
            && ("SIP" in selected ==> w.sip > 0.0) && ("SIP" !in selected ==> w.sip == 0.0)
            && w.gold > 0.0 && w.silver > 0.0
  {
    var t := Template(RiskKey(user)).value;
    var base := BaseWeights(user).value;
    BaseWeightsTotal(user);
    ScaledWeightPositive(t.fd, base.Sum());
    ScaledWeightPositive(t.bank, base.Sum());
    ScaledWeightPositive(t.sip, base.Sum());
    ScaledWeightPositive(t.gold, base.Sum());
    ScaledWeightPositive(t.silver, base.Sum());
    assert Share(0.0, base.Sum()) == 0.0;
  }

  /** A deposit instrument has an entry in the expected returns exactly when
      the user selected it; Gold and Silver always have one. */
  lemma ReturnsFollowSelection(user: UserData, prices: map<string, PriceFields>, rates: map<string, real>)
    requires RecommendAllocation(user, prices, rates).Ok?
    ensures var e := RecommendAllocation(user, prices, rates).value.expectedReturns;
            && (e.fd.Some? <==> "FD" in user.selectedInstruments)
            && (e.bank.Some? <==> "Bank" in user.selectedInstruments)
            && (e.sip.Some? <==> "SIP" in user.selectedInstruments)
  {
    SelectionRule(user);
  }

  /** The simulated baseline is 95% of the current price, so a metal's ROI is
      the constant 100/19 (about 5.26%) unless its price is 0; its projected
      value grows its amount by that ROI, and a missing price or source takes
      the defaults 5000 and "fallback". */
  lemma MetalProjectionRule(key: string, amount: real, prices: map<string, PriceFields>)
    ensures var m := MetalProjectionOf(key, amount, prices);
            && (m.price != 0.0 ==> m.roiPercent == 100.0 / 19.0)
            && (m.price == 0.0 ==> m.roiPercent == 0.0)
            && m.projectedValue == amount * (1.0 + m.roiPercent / 100.0)
            && m.amount == amount
            && m.price == (if key in prices && prices[key].price.Some? then prices[key].price.value else 5000.0)
            && m.source == (if key in prices && prices[key].source.Some? then prices[key].source.value else "fallback")
  {
    var m := MetalProjectionOf(key, amount, prices);
    var p := m.price;
    if p != 0.0 {
      assert m.roiPercent == (p - p * 0.95) / (p * 0.95) * 100.0;
      assert p - p * 0.95 == p * 0.05;
      assert p * 0.05 / (p * 0.95) == 0.05 / 0.95;
    }
  }

  /** The FD projection compounds once over a year at the user's FD rate or
      its default, and reports its ROI on the amount put in. */
  lemma FdProjectionRule(amount: real, rates: map<string, real>)
    requires amount != 0.0
    ensures var p := FdProjection(amount, rates);
            && p.rate == (if "FD" in rates then rates["FD"] else 6.5)
            && p.amount == amount
            && p.projectedValue == amount * (1.0 + p.rate / 100.0)
            && p.projectedValue == amount * (1.0 + p.roiPercent / 100.0)
  {
    var rate := RateOr(rates, "FD", DefaultFdRate);
    assert Calculators.Grow(amount, 1.0 + rate / 100.0, 1) == amount * (1.0 + rate / 100.0);
  }

  /** The Bank projection compounds monthly over twelve months at the user's
      Bank rate or its default, and reports its ROI on the amount put in. */
  lemma BankProjectionRule(amount: real, rates: map<string, real>)
    requires amount != 0.0
    ensures var p := BankProjection(amount, rates);
            && p.rate == (if "Bank" in rates then rates["Bank"] else 3.5)
            && p.amount == amount
            && p.projectedValue == Calculators.Grow(amount, 1.0 + p.rate / 12.0 / 100.0, 12)
            && p.projectedValue == amount * (1.0 + p.roiPercent / 100.0)
  {
  }

  /** The SIP projection pays one twelfth of the amount at the start of each
      of twelve months at the user's SIP rate or its default, and reports its
      ROI on the amount put in. */
  lemma SipProjectionRule(amount: real, rates: map<string, real>)
    requires amount != 0.0
    ensures var p := SipProjection(amount, rates);
            && p.rate == (if "SIP" in rates then rates["SIP"] else 12.0)
            && p.amount == amount
            && p.projectedValue == Calculators.Deposits(amount / 12.0, p.rate / 12.0 / 100.0, 12)
            && p.projectedValue == amount * (1.0 + p.roiPercent / 100.0)
  {
    var rate := RateOr(rates, "SIP", DefaultSipRate);
    assert Calculators.SipReturnOf(amount / 12.0, rate, 12).totalInvested == amount;
  }

  /** The SIP is fed `amount / 12` for 12 months, so what it invests is the
      SIP's allocated amount. */
  lemma SipInvestsItsAmount(amount: real, rate: real)
    requires amount != 0.0
    ensures Calculators.SipReturnOf(amount / 12.0, rate, 12).totalInvested == amount
  {
  }

  /** The total expected ROI is the growth of the whole portfolio's projected
      value over the investable amount. */
  lemma TotalRoiIsPortfolioGrowth(user: UserData, prices: map<string, PriceFields>, rates: map<string, real>)
    requires RecommendAllocation(user, prices, rates).Ok?
    ensures var rec := RecommendAllocation(user, prices, rates).value;
            var investable := user.investableAmount.GetOr(DefaultInvestable);
            TotalRoiMatches(rec.expectedReturns, investable)
  {
  }

  /** A medium-risk user with FD and SIP selected: Bank gets weight 0 and no
      entry, and FD, SIP, Gold and Silver get 29.4, 47.1, 17.6 and 5.9, adding
      up to exactly 100. */
  lemma MediumFdSipExample(prices: map<string, PriceFields>, rates: map<string, real>)
    ensures var user := UserData(Some("medium"), ["FD", "SIP"], Some(100000.0));
            var r := RecommendAllocation(user, prices, rates);
            && FinalWeights(user) == Ok(Weights(29.4, 0.0, 47.1, 17.6, 5.9))
            && r.Ok?
            && r.value.portfolio.Sum() == 100.0
            && r.value.expectedReturns.bank.None?
            && r.value.expectedReturns.fd.Some? && r.value.expectedReturns.sip.Some?
  {
    var user := UserData(Some("medium"), ["FD", "SIP"], Some(100000.0));
    MediumFdSipWeights();
    ReturnsFollowSelection(user, prices, rates);
  }

  lemma MediumFdSipWeights()
    ensures FinalWeights(UserData(Some("medium"), ["FD", "SIP"], Some(100000.0)))
         == Ok(Weights(29.4, 0.0, 47.1, 17.6, 5.9))
  {
    var user := UserData(Some("medium"), ["FD", "SIP"], Some(100000.0));
    assert "FD" in user.selectedInstruments && "SIP" in user.selectedInstruments;
    assert "Bank" !in user.selectedInstruments;
    assert BaseWeights(user) == Ok(Weights(25.0, 0.0, 40.0, 15.0, 5.0));
    assert Round1(Share(25.0, 85.0)) == 29.4 by {
      assert Share(25.0, 85.0) * 10.0 == 2500.0 / 8.5;
      assert (2500.0 / 8.5).Floor == 294;
    }
    assert Round1(Share(0.0, 85.0)) == 0.0;
    assert Round1(Share(40.0, 85.0)) == 47.1 by {
      assert Share(40.0, 85.0) * 10.0 == 4000.0 / 8.5;
      assert (4000.0 / 8.5).Floor == 470;
    }
    assert Round1(Share(15.0, 85.0)) == 17.6 by {
      assert Share(15.0, 85.0) * 10.0 == 1500.0 / 8.5;
      assert (1500.0 / 8.5).Floor == 176;
    }
    assert Round1(Share(5.0, 85.0)) == 5.9 by {
      assert Share(5.0, 85.0) * 10.0 == 500.0 / 8.5;
      assert (500.0 / 8.5).Floor == 58;
    }
  }

  /** A high-risk user with only SIP selected: the shares 18.75 and 6.25 are
      exact ties, rounded to the even tenth (18.8 and 6.2), so the weights
      0, 0, 75, 18.8 and 6.2 add up to exactly 100. */
  lemma HighSipOnlyExample()
    ensures FinalWeights(UserData(Some("high"), ["SIP"], None)) == Ok(Weights(0.0, 0.0, 75.0, 18.8, 6.2))
  {
    var user := UserData(Some("high"), ["SIP"], None);
    assert "SIP" in user.selectedInstruments;
    assert "FD" !in user.selectedInstruments && "Bank" !in user.selectedInstruments;
    assert BaseWeights(user) == Ok(Weights(0.0, 0.0, 60.0, 15.0, 5.0));
    assert Share(15.0, 80.0) == 18.75 && Share(5.0, 80.0) == 6.25;
    assert Round1(18.75) == 18.8 by { assert (187.5).Floor == 187; }
    assert Round1(6.25) == 6.2 by { assert (62.5).Floor == 62; }
    assert Round1(Share(0.0, 80.0)) == 0.0;
    assert Round1(Share(60.0, 80.0)) == 75.0;
  }

  /** A low-risk user who selected every instrument keeps the low-risk
      template unchanged: 45, 25, 10, 15 and 5. */
  lemma LowAllSelectedExample()
    ensures FinalWeights(UserData(Some("low"), ["FD", "Bank", "SIP", "Gold", "Silver"], None))
         == Ok(Weights(45.0, 25.0, 10.0, 15.0, 5.0))
  {
    var user := UserData(Some("low"), ["FD", "Bank", "SIP", "Gold", "Silver"], None);
    assert "FD" in user.selectedInstruments && "Bank" in user.selectedInstruments
        && "SIP" in user.selectedInstruments;
    assert BaseWeights(user) == Ok(Weights(45.0, 25.0, 10.0, 15.0, 5.0));
    assert Round1(Share(45.0, 100.0)) == 45.0 by { assert Share(45.0, 100.0) == 45.0; }
    assert Round1(Share(25.0, 100.0)) == 25.0 by { assert Share(25.0, 100.0) == 25.0; }
    assert Round1(Share(10.0, 100.0)) == 10.0 by { assert Share(10.0, 100.0) == 10.0; }
    assert Round1(Share(15.0, 100.0)) == 15.0 by { assert Share(15.0, 100.0) == 15.0; }
    assert Round1(Share(5.0, 100.0)) == 5.0 by { assert Share(5.0, 100.0) == 5.0; }
  }
}
