/**
 * The ROI estimator of the landing page (the `useMemo` block over the `roi`
 * record): monthly staff cost, licence cost, upsell revenue, net savings and
 * the payback period in days. Numbers are exact reals; JavaScript's
 * floating-point rounding is not modelled.
 */
module Roi {

  import opened JsMath

  /** Every shift lasts eight hours; this is a fixed assumption of the estimator. */
  const HoursPerShift: real := 8.0
  /** The payback period is expressed over a 30-day month. */
  const DaysPerMonth: real := 30.0
  /** A positive payback is never reported below one week. */
  const MinPaybackDays: int := 7

  /** The `roi` state record. */
  datatype RoiInput = RoiInput(
    monthlyCovers: real,  // covers per location per month
    avgWage: real,        // hourly wage
    waiterPerShift: real,
    shiftsPerDay: real,
    days: real,           // operating days per month
    aiLic: real,          // monthly licence fee per location
    upsellLift: real,     // fractional revenue lift
    avgTicket: real)

  /** The record the estimator returns. */
  datatype RoiOutput = RoiOutput(
    humanCost: real,
    aiCost: real,
    upsellGain: real,
    netSavings: real,
    paybackDays: int)

  /** The initial value of the `roi` state; the page never changes it. */
  const Defaults: RoiInput := RoiInput(15000.0, 14.0, 3.0, 2.0, 30.0, 799.0, 0.12, 18.0)

  predicate NonNegative(roi: RoiInput)
  {
    && roi.monthlyCovers >= 0.0 && roi.avgWage >= 0.0 && roi.waiterPerShift >= 0.0
    && roi.shiftsPerDay >= 0.0 && roi.days >= 0.0 && roi.aiLic >= 0.0
    && roi.upsellLift >= 0.0 && roi.avgTicket >= 0.0
  }

  /** The payback rule: none without positive savings, else at least a week. */
  function Payback(aiMonthly: real, savings: real): (days: int)
    ensures days == 0 <==> savings <= 0.0
    ensures savings > 0.0 ==> days >= MinPaybackDays
    ensures savings > 0.0 && days > MinPaybackDays ==>
              days as real - 0.5 <= aiMonthly / savings * DaysPerMonth < days as real + 0.5
    ensures savings > 0.0 && days == MinPaybackDays ==>
              aiMonthly / savings * DaysPerMonth < MinPaybackDays as real + 0.5
  {
    if savings > 0.0 then MaxInt(MinPaybackDays, Round(aiMonthly / savings * DaysPerMonth)) else 0
  }

  /** The estimator. */
  function Estimate(roi: RoiInput): (r: RoiOutput)
    ensures r.aiCost == roi.aiLic
    ensures r.paybackDays == 0 <==> r.netSavings <= 0.0
    ensures r.netSavings > 0.0 ==> r.paybackDays >= MinPaybackDays
  {
    var humanMonthly := roi.avgWage * (roi.waiterPerShift * HoursPerShift) * roi.shiftsPerDay * roi.days;
    var aiMonthly := roi.aiLic;
    var upsell := roi.monthlyCovers * roi.avgTicket * roi.upsellLift;
    var savings := humanMonthly - aiMonthly + upsell;
    RoiOutput(humanMonthly, aiMonthly, upsell, savings, Payback(aiMonthly, savings))
  }

  /** Staff hours bought per month: every waiter of every shift works eight hours. */
  function StaffHours(roi: RoiInput): real
  {
    roi.waiterPerShift * roi.shiftsPerDay * roi.days * HoursPerShift
  }

  /** The staff cost is the wage times the staff hours, and the net savings are
      what the staff cost and the upsell bring in, less the licence. */
  lemma EstimateBalance(roi: RoiInput)
    ensures Estimate(roi).humanCost == roi.avgWage * StaffHours(roi)
    ensures Estimate(roi).upsellGain == roi.monthlyCovers * roi.avgTicket * roi.upsellLift
    ensures Estimate(roi).netSavings
            == Estimate(roi).humanCost - Estimate(roi).aiCost + Estimate(roi).upsellGain
  {
    var w, s, sh, d := roi.avgWage, roi.waiterPerShift, roi.shiftsPerDay, roi.days;
    assert w * (s * 8.0) * sh * d == w * (s * sh * d * 8.0);
  }

  /** Raising the licence fee by `delta`, all else fixed, lowers the net savings
      by exactly `delta` and leaves staff cost and upsell untouched. */
  lemma LicenceFeeShift(roi: RoiInput, delta: real)
    ensures Estimate(roi.(aiLic := roi.aiLic + delta)).netSavings == Estimate(roi).netSavings - delta
    ensures Estimate(roi.(aiLic := roi.aiLic + delta)).aiCost == Estimate(roi).aiCost + delta
    ensures Estimate(roi.(aiLic := roi.aiLic + delta)).humanCost == Estimate(roi).humanCost
    ensures Estimate(roi.(aiLic := roi.aiLic + delta)).upsellGain == Estimate(roi).upsellGain
  {
  }

  /** On non-negative inputs every cost and gain is non-negative. */
  lemma NonNegativeInputs(roi: RoiInput)
    requires NonNegative(roi)
    ensures Estimate(roi).humanCost >= 0.0
    ensures Estimate(roi).aiCost >= 0.0
    ensures Estimate(roi).upsellGain >= 0.0
    ensures Estimate(roi).paybackDays >= 0
  {
    MulNonNegative(roi.waiterPerShift, HoursPerShift);
    MulNonNegative(roi.avgWage, roi.waiterPerShift * HoursPerShift);
    MulNonNegative(roi.avgWage * (roi.waiterPerShift * HoursPerShift), roi.shiftsPerDay);
    MulNonNegative(roi.avgWage * (roi.waiterPerShift * HoursPerShift) * roi.shiftsPerDay, roi.days);
    MulNonNegative(roi.monthlyCovers, roi.avgTicket);
    MulNonNegative(roi.monthlyCovers * roi.avgTicket, roi.upsellLift);
  }

  /** The reported payback is the exact payback `aiCost / netSavings * 30`
      rounded to the nearest day, unless that falls below a week. */
  lemma PaybackApproximatesExact(roi: RoiInput)
    requires Estimate(roi).netSavings > 0.0
    ensures var r := Estimate(roi);
            var exact := r.aiCost / r.netSavings * DaysPerMonth;
            (r.paybackDays == MinPaybackDays && exact < MinPaybackDays as real + 0.5)
            || (r.paybackDays > MinPaybackDays
                && r.paybackDays as real - 0.5 <= exact < r.paybackDays as real + 0.5)
  {
    var r := Estimate(roi);
    var exact := r.aiCost / r.netSavings * DaysPerMonth;
    if r.paybackDays == MinPaybackDays {
      assert Round(exact) <= MinPaybackDays;
    }
  }

  /** With the licence fee fixed and non-negative, larger savings never lengthen the payback. */
  lemma PaybackMonotone(aiMonthly: real, s1: real, s2: real)
    requires aiMonthly >= 0.0
    requires 0.0 < s1 <= s2
    ensures Payback(aiMonthly, s2) <= Payback(aiMonthly, s1)
  {
    var e1 := aiMonthly / s1 * DaysPerMonth;
    var e2 := aiMonthly / s2 * DaysPerMonth;
    assert aiMonthly / s2 <= aiMonthly / s1 by {
      assert aiMonthly / s2 * s2 == aiMonthly == aiMonthly / s1 * s1;
      assert aiMonthly / s1 * s2 >= aiMonthly / s1 * s1;
    }
    RoundMonotone(e2, e1);
  }

  /** Scaling one factor of a product scales the product. */
  lemma ScaleFactor(k: real, a: real, b: real)
    ensures (k * a) * b == k * (a * b)
  {
  }

  /** A ratio is unchanged when both sides are scaled by the same positive factor. */
  lemma ScaleRatio(k: real, a: real, b: real)
    requires k > 0.0 && b != 0.0
    ensures (k * a) / (k * b) == a / b
  {
    assert (a / b) * (k * b) == k * a;
  }

  /** The payback depends only on the ratio of licence fee to savings. */
  lemma PaybackScaling(k: real, aiMonthly: real, savings: real, aiScaled: real, savingsScaled: real)
    requires k > 0.0
    requires aiScaled == k * aiMonthly && savingsScaled == k * savings
    ensures Payback(aiScaled, savingsScaled) == Payback(aiMonthly, savings)
  {
    if savings > 0.0 {
      assert savingsScaled > 0.0;
      ScaleRatio(k, aiMonthly, savings);
    } else {
      assert savingsScaled <= 0.0;
    }
  }

  /** Wage, licence and ticket scaled by a common factor `k`. */
  function InCurrency(roi: RoiInput, k: real): RoiInput
  {
    roi.(avgWage := k * roi.avgWage, aiLic := k * roi.aiLic, avgTicket := k * roi.avgTicket)
  }

  lemma StaffCostScaling(k: real, roi: RoiInput)
    ensures Estimate(InCurrency(roi, k)).humanCost == k * Estimate(roi).humanCost
  {
    var staff := roi.waiterPerShift * HoursPerShift;
    var w := roi.avgWage;
    calc {
      (k * w) * staff * roi.shiftsPerDay * roi.days;
      { ScaleFactor(k, w, staff); }
      (k * (w * staff)) * roi.shiftsPerDay * roi.days;
      { ScaleFactor(k, w * staff, roi.shiftsPerDay); }
      (k * (w * staff * roi.shiftsPerDay)) * roi.days;
      { ScaleFactor(k, w * staff * roi.shiftsPerDay, roi.days); }
      k * (w * staff * roi.shiftsPerDay * roi.days);
    }
  }

  lemma UpsellScaling(k: real, roi: RoiInput)
    ensures Estimate(InCurrency(roi, k)).upsellGain == k * Estimate(roi).upsellGain
  {
    var c, t := roi.monthlyCovers, roi.avgTicket;
    calc {
      c * (k * t) * roi.upsellLift;
      { assert c * (k * t) == k * (c * t); }
      (k * (c * t)) * roi.upsellLift;
      { ScaleFactor(k, c * t, roi.upsellLift); }
      k * (c * t * roi.upsellLift);
    }
  }

  lemma SavingsScaling(k: real, roi: RoiInput)
    ensures Estimate(InCurrency(roi, k)).netSavings == k * Estimate(roi).netSavings
  {
    StaffCostScaling(k, roi);
    UpsellScaling(k, roi);
    var r, q := Estimate(roi), Estimate(InCurrency(roi, k));
    calc {
      q.netSavings;
      q.humanCost - q.aiCost + q.upsellGain;
      k * r.humanCost - k * r.aiCost + k * r.upsellGain;
      k * (r.humanCost - r.aiCost + r.upsellGain);
    }
  }

  /** The estimator is currency-agnostic: scaling wage, licence and ticket by the
      same positive factor scales every amount by it and keeps the payback. */
  lemma CurrencyScaling(roi: RoiInput, k: real)
    requires k > 0.0
    ensures Estimate(InCurrency(roi, k)).humanCost == k * Estimate(roi).humanCost
    ensures Estimate(InCurrency(roi, k)).aiCost == k * Estimate(roi).aiCost
    ensures Estimate(InCurrency(roi, k)).upsellGain == k * Estimate(roi).upsellGain
    ensures Estimate(InCurrency(roi, k)).netSavings == k * Estimate(roi).netSavings
    ensures Estimate(InCurrency(roi, k)).paybackDays == Estimate(roi).paybackDays
  {
    StaffCostScaling(k, roi);
    UpsellScaling(k, roi);
    SavingsScaling(k, roi);
    var r, q := Estimate(roi), Estimate(InCurrency(roi, k));
    assert q.paybackDays == Payback(q.aiCost, q.netSavings);
    PaybackScaling(k, r.aiCost, r.netSavings, q.aiCost, q.netSavings);
  }

  /** The page as shipped: the estimator only ever sees the default record. */
  lemma DefaultScenario()
    ensures Estimate(Defaults) == RoiOutput(20160.0, 799.0, 32400.0, 51761.0, 7)
  {
    assert Estimate(Defaults).netSavings == 51761.0;
    var exact := 799.0 / 51761.0 * DaysPerMonth;
    assert 0.0 <= exact < 0.5;
    RoundUnique(exact, 0);
  }

  /** All-zero input: every amount is zero and there is no payback. */
  lemma ZeroScenario()
    ensures Estimate(RoiInput(0.0, 0.0, 0.0, 0.0, 0.0, 0.0, 0.0, 0.0)) == RoiOutput(0.0, 0.0, 0.0, 0.0, 0)
  {
  }
}
