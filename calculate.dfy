/** The expected-value calculator: the expected monetary value of repairing an
    old car against that of buying a new, safer one.

    The calculator is one straight-line computation over sixteen named
    constants. Here the constants become the fields of `Params`, the default
    assignment becomes the constant `DEFAULTS`, and every intermediate name
    becomes a function of the parameters, so that the computation can be
    reasoned about for every choice of inputs and not only the defaults.
    All arithmetic is over `real`: the rounding of binary floating point is
    not modelled.
 */
module Calculate {

  /** The sixteen user-selected variables, one field per constant. */
  datatype Params = Params(
    // Old car
    repairCost: real,               // R
    probReliable: real,             // p
    additionalMaintOld: real,       // M
    catastrophicFailureCost: real,  // F_cat
    resaleOld: real,                // V_old
    intangibleOld: real,            // I_old
    // Accident model shared by both options
    minorAccidentProb: real,
    majorAccidentProb: real,
    costMinorAccident: real,
    costMajorAccident: real,
    // New car
    purchaseNew: real,              // P_new
    maintNew: real,                 // m
    resaleNew: real,                // V_new
    intangibleNew: real,            // I_new
    // Fractions by which the new car lowers each accident probability
    safetyReductionMinor: real,     // x
    safetyReductionMajor: real      // y
  )

  /** The values the program assigns. The resale and intangible values that
      the program writes as the integer 0 are the real 0.0 here. */
  const DEFAULTS := Params(
    repairCost := 2000.0,
    probReliable := 0.5,
    additionalMaintOld := 2000.0,
    catastrophicFailureCost := 500.0,
    resaleOld := 0.0,
    intangibleOld := 0.0,
    minorAccidentProb := 0.50,
    majorAccidentProb := 0.01,
    costMinorAccident := 5000.0,
    costMajorAccident := 500000.0,
    purchaseNew := 35000.0,
    maintNew := 1500.0,
    resaleNew := 18000.0,
    intangibleNew := 0.0,
    safetyReductionMinor := 0.80,
    safetyReductionMajor := 0.30
  )

  predicate IsProbability(x: real) {
    0.0 <= x <= 1.0
  }

  /** What the properties below need of the accident model: both
      probabilities and both costs non-negative. The probabilities are meant
      to be at most 1 as well, but no property depends on that bound. The
      program checks none of this; it is a hypothesis of the properties. */
  predicate AccidentModelSound(p: Params) {
    && p.minorAccidentProb >= 0.0
    && p.majorAccidentProb >= 0.0
    && p.costMinorAccident >= 0.0
    && p.costMajorAccident >= 0.0
  }

  /** Both safety reductions are fractions in [0,1]; 1 removes the hazard. */
  predicate ReductionsInRange(p: Params) {
    IsProbability(p.safetyReductionMinor) && IsProbability(p.safetyReductionMajor)
  }

  // ---------------------------------------------------------------------
  // Sign facts about products, used by the formulas' contracts and by the
  // lemmas in CalculateProperties
  // ---------------------------------------------------------------------

  lemma MulNonNegative(a: real, b: real)
    ensures a >= 0.0 && b >= 0.0 ==> a * b >= 0.0
  {}

  lemma MulPositive(a: real, b: real)
    ensures a > 0.0 && b > 0.0 ==> a * b > 0.0
  {}

  lemma MulThreeSigns(d: real, a: real, b: real)
    ensures d >= 0.0 && a >= 0.0 && b >= 0.0 ==> d * a * b >= 0.0
    ensures d > 0.0 && a > 0.0 && b > 0.0 ==> d * a * b > 0.0
  {}

  /** Scaling a non-negative probability-times-cost by 1 - x, x in [0,1],
      keeps it between 0 and its unscaled value; x = 0 leaves it unchanged
      and x = 1 makes it 0. */
  lemma ScaledTermBounds(prob: real, x: real, cost: real)
    ensures prob >= 0.0 && cost >= 0.0 && IsProbability(x)
            ==> 0.0 <= prob * (1.0 - x) * cost <= prob * cost
    ensures x == 0.0 ==> prob * (1.0 - x) * cost == prob * cost
    ensures x == 1.0 ==> prob * (1.0 - x) * cost == 0.0
  {}

  // ---------------------------------------------------------------------
  // Expected accident costs
  // ---------------------------------------------------------------------

  /** Expected accident cost of keeping the old car: probability times cost,
      for a minor and for a major accident. It is never negative when the
      accident model is sound. */
  function AccidentCostOld(p: Params): (r: real)
    ensures AccidentModelSound(p) ==> r >= 0.0
  {
    MulNonNegative(p.minorAccidentProb, p.costMinorAccident);
    MulNonNegative(p.majorAccidentProb, p.costMajorAccident);
    p.minorAccidentProb * p.costMinorAccident
    + p.majorAccidentProb * p.costMajorAccident
  }

  /** Expected accident cost of the new car: as for the old car, with each
      probability scaled by one minus its safety reduction. With sound inputs
      it lies between 0 and the old car's cost; reductions of 0 leave the old
      car's cost unchanged and reductions of 1 remove it entirely. */
  function AccidentCostNew(p: Params): (r: real)
    ensures AccidentModelSound(p) && ReductionsInRange(p) ==> 0.0 <= r <= AccidentCostOld(p)
    ensures p.safetyReductionMinor == 0.0 && p.safetyReductionMajor == 0.0 ==> r == AccidentCostOld(p)
    ensures p.safetyReductionMinor == 1.0 && p.safetyReductionMajor == 1.0 ==> r == 0.0
  {
    ScaledTermBounds(p.minorAccidentProb, p.safetyReductionMinor, p.costMinorAccident);
    ScaledTermBounds(p.majorAccidentProb, p.safetyReductionMajor, p.costMajorAccident);
    assert AccidentCostOld(p)
           == p.minorAccidentProb * p.costMinorAccident + p.majorAccidentProb * p.costMajorAccident;
    p.minorAccidentProb * (1.0 - p.safetyReductionMinor) * p.costMinorAccident
    + p.majorAccidentProb * (1.0 - p.safetyReductionMajor) * p.costMajorAccident
  }

  // ---------------------------------------------------------------------
  // EV of repairing the old car, term by term
  // ---------------------------------------------------------------------

  function RepairInitialOutlay(p: Params): real {
    -(p.repairCost + p.additionalMaintOld)
  }

  function RepairCatastrophic(p: Params): real {
    -(1.0 - p.probReliable) * p.catastrophicFailureCost
  }

  function RepairResale(p: Params): real {
    p.probReliable * p.resaleOld
  }

  function RepairIntangibles(p: Params): real {
    -p.intangibleOld
  }

  function RepairAccident(p: Params): real {
    -AccidentCostOld(p)
  }

  /** The EV of repairing, the sum of its five terms. It equals the closed
      form the program documents beside the computation:
      -R - M - (1 - p)*F_cat + p*V_old - I_old - accident_cost_old. */
  function EVRepair(p: Params): (r: real)
    ensures r == -p.repairCost - p.additionalMaintOld
                 - (1.0 - p.probReliable) * p.catastrophicFailureCost
                 + p.probReliable * p.resaleOld
                 - p.intangibleOld
                 - AccidentCostOld(p)
  {
    RepairInitialOutlay(p)
    + RepairCatastrophic(p)
    + RepairResale(p)
    + RepairIntangibles(p)
    + RepairAccident(p)
  }

  // ---------------------------------------------------------------------
  // EV of buying the new car, term by term
  // ---------------------------------------------------------------------

  function NewInitialOutlay(p: Params): real {
    -(p.purchaseNew + p.maintNew)
  }

  function NewResale(p: Params): real {
    p.resaleNew
  }

  function NewIntangibles(p: Params): real {
    p.intangibleNew
  }

  function NewAccident(p: Params): real {
    -AccidentCostNew(p)
  }

  /** The EV of buying new, the sum of its four terms. It equals the closed
      form the program documents beside the computation:
      -P_new - m + V_new + I_new - accident_cost_new. */
  function EVNew(p: Params): (r: real)
    ensures r == -p.purchaseNew - p.maintNew + p.resaleNew + p.intangibleNew - AccidentCostNew(p)
  {
    NewInitialOutlay(p)
    + NewResale(p)
    + NewIntangibles(p)
    + NewAccident(p)
  }

  // ---------------------------------------------------------------------
  // The comparison rule (stated in a closing comment, not executed)
  // ---------------------------------------------------------------------

  /** Which option the closing comment of the program recommends. The comment
      names no choice for equal EVs; `Indifferent` stands for that case. */
  datatype Choice = RepairOldCar | BuyNewCar | Indifferent

  /** Repairing is the better choice exactly when its EV is the larger, buying
      new exactly when that EV is the larger, and neither when they are equal. */
  function Prefer(p: Params): (c: Choice)
    ensures c == RepairOldCar <==> EVRepair(p) > EVNew(p)
    ensures c == BuyNewCar <==> EVNew(p) > EVRepair(p)
    ensures c == Indifferent <==> EVRepair(p) == EVNew(p)
  {
    if EVRepair(p) > EVNew(p) then RepairOldCar
    else if EVNew(p) > EVRepair(p) then BuyNewCar
    else Indifferent
  }
}
