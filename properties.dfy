/** Properties of the calculator that relate several evaluations: the values
    at the defaults, how each EV moves with the reliability probability and
    the safety reductions, which parameters each EV depends on, and where the
    comparison rule switches from buying new to repairing. */
module CalculateProperties {
  import opened Calculate

  // ---------------------------------------------------------------------
  // The defaults
  // ---------------------------------------------------------------------

  /** The default constants lie in the ranges the model assumes. */
  lemma DefaultsInRange()
    ensures IsProbability(DEFAULTS.probReliable)
    ensures IsProbability(DEFAULTS.minorAccidentProb) && IsProbability(DEFAULTS.majorAccidentProb)
    ensures AccidentModelSound(DEFAULTS)
    ensures ReductionsInRange(DEFAULTS)
  {}

  /** At the defaults the expected accident costs are 0.5*5000 + 0.01*500000
      = 7500 for the old car and 0.5*0.2*5000 + 0.01*0.7*500000 = 4000 for
      the new one. */
  lemma DefaultAccidentCosts()
    ensures AccidentCostOld(DEFAULTS) == 7500.0
    ensures AccidentCostNew(DEFAULTS) == 4000.0
  {}

  /** At the defaults, EV_repair = -4000 - 250 + 0 - 0 - 7500 = -11750. */
  lemma DefaultEVRepair()
    ensures EVRepair(DEFAULTS) == -11750.0
  {
    assert RepairInitialOutlay(DEFAULTS) == -4000.0;
    assert RepairCatastrophic(DEFAULTS) == -250.0;
    assert RepairResale(DEFAULTS) == 0.0;
    assert RepairIntangibles(DEFAULTS) == 0.0;
    assert RepairAccident(DEFAULTS) == -7500.0 by {
      DefaultAccidentCosts();
    }
  }

  /** At the defaults, EV_new = -36500 + 18000 + 0 - 4000 = -22500. */
  lemma DefaultEVNew()
    ensures EVNew(DEFAULTS) == -22500.0
  {
    assert NewInitialOutlay(DEFAULTS) == -36500.0;
    assert NewResale(DEFAULTS) == 18000.0;
    assert NewIntangibles(DEFAULTS) == 0.0;
    assert NewAccident(DEFAULTS) == -4000.0 by {
      DefaultAccidentCosts();
    }
  }

  /** At the defaults the comparison rule recommends repairing. */
  lemma DefaultPreference()
    ensures Prefer(DEFAULTS) == RepairOldCar
  {
    DefaultEVRepair();
    DefaultEVNew();
  }

  // ---------------------------------------------------------------------
  // Sensitivity to the reliability probability
  // ---------------------------------------------------------------------

  /** Moving the reliability probability from p to q, everything else fixed,
      changes EV_repair by (q - p) * (F_cat + V_old): reliability both saves
      the catastrophic-failure cost and earns the resale value. */
  lemma ReliabilitySensitivity(p: Params, q: real)
    ensures EVRepair(p.(probReliable := q)) - EVRepair(p)
            == (q - p.probReliable) * (p.catastrophicFailureCost + p.resaleOld)
  {}

  /** EV_repair is non-decreasing in the reliability probability when
      F_cat + V_old >= 0, and strictly increasing when F_cat + V_old > 0. */
  lemma ReliabilityMonotone(p: Params, q: real)
    requires p.probReliable <= q
    ensures p.catastrophicFailureCost + p.resaleOld >= 0.0
            ==> EVRepair(p) <= EVRepair(p.(probReliable := q))
    ensures p.catastrophicFailureCost + p.resaleOld > 0.0 && p.probReliable < q
            ==> EVRepair(p) < EVRepair(p.(probReliable := q))
  {
    var d := q - p.probReliable;
    var s := p.catastrophicFailureCost + p.resaleOld;
    ReliabilitySensitivity(p, q);
    assert EVRepair(p.(probReliable := q)) == EVRepair(p) + d * s;
    MulNonNegative(d, s);
    if s > 0.0 && d > 0.0 {
      MulPositive(d, s);
      assert d * s > 0.0;
    }
  }

  // ---------------------------------------------------------------------
  // Sensitivity to the safety reductions
  // ---------------------------------------------------------------------

  /** Raising the minor-accident safety reduction from x to x2 raises EV_new
      by (x2 - x) * minor probability * minor cost. */
  lemma SafetyReductionMinorSensitivity(p: Params, x2: real)
    ensures EVNew(p.(safetyReductionMinor := x2)) - EVNew(p)
            == (x2 - p.safetyReductionMinor) * p.minorAccidentProb * p.costMinorAccident
  {}

  /** The same for the major-accident safety reduction. */
  lemma SafetyReductionMajorSensitivity(p: Params, y2: real)
    ensures EVNew(p.(safetyReductionMajor := y2)) - EVNew(p)
            == (y2 - p.safetyReductionMajor) * p.majorAccidentProb * p.costMajorAccident
  {}

  /** With non-negative accident probabilities and costs, raising the minor
      safety reduction never lowers EV_new, and raises it strictly when the
      minor probability and cost are both positive. */
  lemma SafetyReductionMinorMonotone(p: Params, x2: real)
    requires AccidentModelSound(p)
    requires p.safetyReductionMinor <= x2
    ensures EVNew(p) <= EVNew(p.(safetyReductionMinor := x2))
    ensures p.safetyReductionMinor < x2 && p.minorAccidentProb > 0.0 && p.costMinorAccident > 0.0
            ==> EVNew(p) < EVNew(p.(safetyReductionMinor := x2))
  {
    var d := x2 - p.safetyReductionMinor;
    var gain := d * p.minorAccidentProb * p.costMinorAccident;
    MulThreeSigns(d, p.minorAccidentProb, p.costMinorAccident);
    SafetyReductionMinorSensitivity(p, x2);
    assert EVNew(p.(safetyReductionMinor := x2)) == EVNew(p) + gain;
    if p.safetyReductionMinor < x2 && p.minorAccidentProb > 0.0 && p.costMinorAccident > 0.0 {
      assert gain > 0.0;
    }
  }

  /** The same for the major safety reduction. */
  lemma SafetyReductionMajorMonotone(p: Params, y2: real)
    requires AccidentModelSound(p)
    requires p.safetyReductionMajor <= y2
    ensures EVNew(p) <= EVNew(p.(safetyReductionMajor := y2))
    ensures p.safetyReductionMajor < y2 && p.majorAccidentProb > 0.0 && p.costMajorAccident > 0.0
            ==> EVNew(p) < EVNew(p.(safetyReductionMajor := y2))
  {
    var d := y2 - p.safetyReductionMajor;
    var gain := d * p.majorAccidentProb * p.costMajorAccident;
    MulThreeSigns(d, p.majorAccidentProb, p.costMajorAccident);
    SafetyReductionMajorSensitivity(p, y2);
    assert EVNew(p.(safetyReductionMajor := y2)) == EVNew(p) + gain;
    if p.safetyReductionMajor < y2 && p.majorAccidentProb > 0.0 && p.costMajorAccident > 0.0 {
      assert gain > 0.0;
    }
  }

  // ---------------------------------------------------------------------
  // Which parameters each EV reads
  // ---------------------------------------------------------------------

  /** p and q agree on the old-car parameters and the shared accident model. */
  predicate SameRepairInputs(p: Params, q: Params) {
    && p.repairCost == q.repairCost
    && p.probReliable == q.probReliable
    && p.additionalMaintOld == q.additionalMaintOld
    && p.catastrophicFailureCost == q.catastrophicFailureCost
    && p.resaleOld == q.resaleOld
    && p.intangibleOld == q.intangibleOld
    && p.minorAccidentProb == q.minorAccidentProb
    && p.majorAccidentProb == q.majorAccidentProb
    && p.costMinorAccident == q.costMinorAccident
    && p.costMajorAccident == q.costMajorAccident
  }

  /** p and q agree on the new-car parameters, the shared accident model and
      the safety reductions. */
  predicate SameNewInputs(p: Params, q: Params) {
    && p.purchaseNew == q.purchaseNew
    && p.maintNew == q.maintNew
    && p.resaleNew == q.resaleNew
    && p.intangibleNew == q.intangibleNew
    && p.minorAccidentProb == q.minorAccidentProb
    && p.majorAccidentProb == q.majorAccidentProb
    && p.costMinorAccident == q.costMinorAccident
    && p.costMajorAccident == q.costMajorAccident
    && p.safetyReductionMinor == q.safetyReductionMinor
    && p.safetyReductionMajor == q.safetyReductionMajor
  }

  /** EV_repair reads only the old-car and shared accident parameters: a
      change to the new-car parameters or the safety reductions leaves it
      as it was. */
  lemma EVRepairReadsOnlyRepairInputs(p: Params, q: Params)
    requires SameRepairInputs(p, q)
    ensures EVRepair(p) == EVRepair(q)
  {}

  /** EV_new reads only the new-car, shared accident and safety-reduction
      parameters: a change to the old-car parameters leaves it as it was. */
  lemma EVNewReadsOnlyNewInputs(p: Params, q: Params)
    requires SameNewInputs(p, q)
    ensures EVNew(p) == EVNew(q)
  {}

  // ---------------------------------------------------------------------
  // Where the comparison rule switches
  // ---------------------------------------------------------------------

  /** The reliability probability at which the two EVs are equal, when
      F_cat + V_old > 0: EV_repair at zero reliability climbs by F_cat + V_old
      per unit of reliability until it meets EV_new. */
  function BreakEvenReliability(p: Params): real
    requires p.catastrophicFailureCost + p.resaleOld > 0.0
  {
    (EVNew(p) - EVRepair(p.(probReliable := 0.0))) / (p.catastrophicFailureCost + p.resaleOld)
  }

  /** When F_cat + V_old > 0 the comparison rule is a threshold on the
      reliability probability: repairing is preferred exactly above the
      break-even reliability, buying new exactly below it. */
  lemma PreferIsReliabilityThreshold(p: Params)
    requires p.catastrophicFailureCost + p.resaleOld > 0.0
    ensures Prefer(p) == RepairOldCar <==> p.probReliable > BreakEvenReliability(p)
    ensures Prefer(p) == BuyNewCar <==> p.probReliable < BreakEvenReliability(p)
  {
    var s := p.catastrophicFailureCost + p.resaleOld;
    var base := EVRepair(p.(probReliable := 0.0));
    ReliabilitySensitivity(p.(probReliable := 0.0), p.probReliable);
    assert p.(probReliable := 0.0).(probReliable := p.probReliable) == p;
    assert EVRepair(p) == base + p.probReliable * s;
    assert BreakEvenReliability(p) * s == EVNew(p) - base;
  }

  /** A recommendation to repair survives a rise in the reliability
      probability whenever F_cat + V_old >= 0: EV_new does not read the
      reliability and EV_repair does not fall. */
  lemma RepairStaysPreferredAsReliabilityRises(p: Params, q: real)
    requires p.probReliable <= q
    requires p.catastrophicFailureCost + p.resaleOld >= 0.0
    requires Prefer(p) == RepairOldCar
    ensures Prefer(p.(probReliable := q)) == RepairOldCar
  {
    ReliabilityMonotone(p, q);
    EVNewReadsOnlyNewInputs(p, p.(probReliable := q));
  }

  /** A recommendation to buy new survives a rise in either safety reduction
      when the accident model is sound: EV_repair does not read the
      reductions and EV_new does not fall. */
  lemma BuyStaysPreferredAsSafetyRises(p: Params, x2: real, y2: real)
    requires AccidentModelSound(p)
    requires p.safetyReductionMinor <= x2 && p.safetyReductionMajor <= y2
    requires Prefer(p) == BuyNewCar
    ensures Prefer(p.(safetyReductionMinor := x2, safetyReductionMajor := y2)) == BuyNewCar
  {
    var p1 := p.(safetyReductionMinor := x2);
    SafetyReductionMinorMonotone(p, x2);
    SafetyReductionMajorMonotone(p1, y2);
    assert p1.(safetyReductionMajor := y2) == p.(safetyReductionMinor := x2, safetyReductionMajor := y2);
    EVRepairReadsOnlyRepairInputs(p, p1.(safetyReductionMajor := y2));
  }
}
