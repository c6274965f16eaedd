# Car repair-or-replace expected-value calculator, in Dafny

The calculator compares two ways of spending money on a car: repairing the
old one or buying a new, safer one. It gives each option an expected
monetary value (EV). Both EVs count the same minor and major accidents.
The new car's safety features lower the probability of each kind of
accident by a fixed fraction.

The program is one straight-line Python script over sixteen named constants.
This model turns those constants into the fields of a datatype `Params`, and
the values the script assigns into the constant `Calculate.DEFAULTS`. Every
intermediate name becomes a function of the parameters, so each formula can
be reasoned about for all inputs, not only the defaults:

- `accident_cost_old` and `accident_cost_new` become `AccidentCostOld` and `AccidentCostNew`.
- The five `repair_*` terms become `RepairInitialOutlay` … `RepairAccident`.
- The four `new_*` terms become `NewInitialOutlay` … `NewAccident`.
- `EV_repair` and `EV_new` become `EVRepair` and `EVNew`.

The script's closing comment gives a comparison rule, which becomes
`Prefer`. That rule is a comment in the script, not executed code.

Files:

- `calculate.dfy` (module `Calculate`) holds the parameters, the defaults,
  the range predicates, the formulas and the comparison rule. It also has
  four small lemmas about the signs of products, used by the formulas'
  contracts and by the lemmas in `CalculateProperties`.
- `properties.dfy` (module `CalculateProperties`) holds the lemmas that
  relate several evaluations:
  - the values at the defaults;
  - the sensitivity of each EV to the reliability probability and to the
    two safety reductions;
  - which parameters each EV reads;
  - where the comparison rule switches.

The arithmetic is over `real`. The ranges the parameters are meant to lie in
are probabilities and reductions in [0,1] and accident costs non-negative.
The properties use only what they need: `AccidentModelSound` asks for
non-negative accident probabilities and costs, `ReductionsInRange` for both
reductions in [0,1], and `IsProbability` for a value in [0,1]. They are
hypotheses of the properties, never checks, because the script validates
nothing.

Over the reals, at the defaults the formulas give:

- `accident_cost_old` = 7500 and `accident_cost_new` = 4000;
- `EV_repair` = -4000 - 250 + 0 - 0 - 7500 = -11750;
- `EV_new` = -36500 + 18000 + 0 - 4000 = -22500.

EV_repair rises strictly with reliability only when F_cat + V_old > 0, since
p enters only through -(1-p)*F_cat and p*V_old; `ReliabilityMonotone` states
this conditional form.

## Model

| member | source | states |
|---|---|---|
| `Calculate.AccidentCostOld` | calculate.py:50-53 | The old car's expected accident cost is not negative when both accident probabilities and both costs are non-negative. |
| `Calculate.AccidentCostNew` | calculate.py:55-63 | With non-negative accident probabilities and costs and both reductions in [0,1], the new car's expected accident cost lies between 0 and the old car's. With both reductions 0 it equals the old car's cost. With both reductions 1 it is 0. |
| `Calculate.EVRepair` | calculate.py:66-90 | The sum of the five repair terms equals the documented closed form -R - M - (1-p)*F_cat + p*V_old - I_old - accident_cost_old. |
| `Calculate.EVNew` | calculate.py:92-113 | The sum of the four new-car terms equals the documented closed form -P_new - m + V_new + I_new - accident_cost_new. |
| `Calculate.Prefer` | calculate.py:122-124 | Recommends repair exactly when EV_repair > EV_new, buying exactly when EV_new > EV_repair, and neither exactly when the two are equal. |
| `CalculateProperties.DefaultsInRange` | calculate.py:19-42 | The default reliability, accident probabilities, accident costs and safety reductions lie in the ranges the properties assume. |
| `CalculateProperties.DefaultAccidentCosts` | calculate.py:19-63 | At the defaults, accident_cost_old = 7500 and accident_cost_new = 4000. |
| `CalculateProperties.DefaultEVRepair` | calculate.py:78-90 | At the defaults, EV_repair = -11750. |
| `CalculateProperties.DefaultEVNew` | calculate.py:103-113 | At the defaults, EV_new = -22500. |
| `CalculateProperties.DefaultPreference` | calculate.py:122-124 | At the defaults, the comparison rule recommends repairing. |
| `CalculateProperties.ReliabilitySensitivity` | calculate.py:79-80 | Moving the reliability from p to q, everything else fixed, changes EV_repair by exactly (q - p) * (F_cat + V_old). |
| `CalculateProperties.ReliabilityMonotone` | calculate.py:79-80 | EV_repair does not decrease as reliability rises when F_cat + V_old >= 0. It strictly increases when F_cat + V_old > 0. |
| `CalculateProperties.SafetyReductionMinorSensitivity` | calculate.py:60-61 | Moving the minor safety reduction from x to x2 changes EV_new by exactly (x2 - x) * minor probability * minor cost. |
| `CalculateProperties.SafetyReductionMajorSensitivity` | calculate.py:60-63 | Moving the major safety reduction from y to y2 changes EV_new by exactly (y2 - y) * major probability * major cost. |
| `CalculateProperties.SafetyReductionMinorMonotone` | calculate.py:103-106 | With non-negative accident probabilities and costs, raising the minor reduction never lowers EV_new. The rise is strict when the minor probability and cost are both positive. |
| `CalculateProperties.SafetyReductionMajorMonotone` | calculate.py:103-106 | The same for the major reduction, with the major probability and cost. |
| `CalculateProperties.EVRepairReadsOnlyRepairInputs` | calculate.py:50-90 | Two parameter sets that agree on the old-car and shared accident parameters give the same EV_repair, whatever their new-car parameters and reductions. |
| `CalculateProperties.EVNewReadsOnlyNewInputs` | calculate.py:55-113 | Two parameter sets that agree on the new-car, shared accident and reduction parameters give the same EV_new, whatever their old-car parameters. |
| `CalculateProperties.PreferIsReliabilityThreshold` | calculate.py:122-124 | When F_cat + V_old > 0, the rule recommends repair exactly when reliability exceeds the break-even value. It recommends buying exactly when reliability is below that value. |
| `CalculateProperties.RepairStaysPreferredAsReliabilityRises` | calculate.py:122-124 | If repair is recommended and F_cat + V_old >= 0, repair is still recommended at any higher reliability. |
| `CalculateProperties.BuyStaysPreferredAsSafetyRises` | calculate.py:122-124 | If buying is recommended and the accident probabilities and costs are non-negative, buying is still recommended at higher safety reductions. |

The nine term functions `RepairInitialOutlay`, `RepairCatastrophic`,
`RepairResale`, `RepairIntangibles` and `RepairAccident` (calculate.py:78-82),
and `NewInitialOutlay`, `NewResale`, `NewIntangibles` and `NewAccident`
(calculate.py:103-106), carry no contracts of their own. They are the terms
that the `EVRepair` and `EVNew` rows sum and relate to the closed forms.

## Left out

- Printing the results with two decimals (calculate.py:118-120) is output with no logic, so it is not modelled.
- IEEE-754 floating-point rounding is not modelled: every formula is evaluated over exact reals.
- The script validates no input. The ranges are written as preconditions of lemmas, not as error paths, because the script has none.
- The comments beside the safety reductions say "30%" and "50%", but the code assigns 0.80 and 0.30. `DEFAULTS` uses the assigned values.
- `RESALE_OLD`, `INTANGIBLE_OLD` and `INTANGIBLE_NEW` are written as the integer 0 in the script. They are the real 0.0 here. Only their arithmetic value matters.
- The closing comment says nothing about equal EVs. `Prefer` returns `Indifferent` for that case.
