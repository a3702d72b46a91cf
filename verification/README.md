# Twenty-sided-die rates engine

This project models the outcome engine of the rates card in
`src/components/RatesCard.tsx`. A roll adds a bonus (`proficiency`) to one
twenty-sided die and compares the total with a target number. It lands in one
of four degrees of success: critical failure, failure, success or critical
success. The engine has four functions:

- `clamp`, the range helper;
- `getD20Rates`, the percentage chance of each degree. A `null` bonus or target
  gives the all-zero table;
- `getSaveRates`, the same table reclassified by the saver's proficiency level;
- `getStrikeRates`, the table for the three strikes of a turn, with the
  multiple-attack penalty applied.

The Dafny modules are:

- `Wrappers`: the `Option` type, used for the source's `null` inputs.
- `Outcomes`: the degrees of success, the four-bucket `Distribution` table, and
  the predicates `IsPercentTable` and `NoWorse`.
- `RatesCard`: the four source functions, step by step as the code computes
  them. Faces 2 to 19 go through three cumulative clamped thresholds. Then the
  natural 20 is credited, then the natural 1, and finally every count is scaled
  to percentages.
- `FaceModel`: an independent face-by-face reference. Each face gets its own
  outcome and the faces are counted one at a time. The lemmas prove that the
  threshold arithmetic computes exactly this count, and use it to prove that a
  larger bonus never hurts.
- `RatesProperties`: properties that relate several calls:
  - only the margin between bonus and target matters;
  - later strikes never do better than earlier ones;
  - the save reclassification moves whole buckets, is idempotent and composes;
  - worked examples.

Inputs are integers, as the form fields supply them. With integer inputs every
`clamp(0, x, 1)` share in the natural-roll branches is exactly 0 or 1. So every
face count is a whole number, and `Math.round(n * 5 * 100) / 100` is exactly
`5 * n`. The model therefore uses `int` percentages.

The code departs from the usual natural-roll rules in one place, and the
model follows the code:

- **Natural 1.** The usual rule makes a natural 1 one degree worse. The code
  credits the natural 1 to critical success when `proficiency + 1` still clears
  the target by ten or more (lines 93-97). `FaceModel.NaturalOneIsTheOnlyDeparture`
  proves this is the only face on which the code differs from the one-degree
  rule. One consequence, `FaceModel.CertainCriticalFromMarginNine`: a bonus at
  least nine above the target is a certain critical success.

Two further facts about the code:

- **Save level 8.** At level 8 and above, the code folds critical failure into
  failure (`f = cf + f; cf = 0`, lines 120-122).
- **Bonus 8 against target 20.** The code gives 10 / 45 / 40 / 5 percent. Faces
  1 and 2 are critical failures, faces 3 to 11 fail, faces 12 to 19 succeed and
  the natural 20 is a critical success. `RatesProperties.RatesTwelveBelowTarget`
  states these figures for every roll twelve below its target.

## Model

| member | source | states |
|---|---|---|
| RatesCard.Clamp | src/components/RatesCard.tsx:40-48 | For a non-empty range, the result lies in the range. It is `n` itself when `n` is already in range, and otherwise the point of the range nearest to `n`. |
| RatesCard.BaseCounts | src/components/RatesCard.tsx:56-73 | The three clamped thresholds sort faces 2 to 19 into non-negative counts that add up to exactly 18 faces. |
| RatesCard.AddNatural20 | src/components/RatesCard.tsx:75-89 | The natural 20 adds exactly one whole face. It goes to critical success if `proficiency + 20 >= target`, else to success if it is at least `target - 9`, else to failure. |
| RatesCard.AddNatural1 | src/components/RatesCard.tsx:91-105 | The natural 1 adds exactly one whole face. It goes to critical failure below the target, to failure from `target` to `target + 9`, and to critical success at `target + 10` or more, as written. |
| RatesCard.FaceCounts | src/components/RatesCard.tsx:56-105 | After both natural rolls the counts are non-negative and cover all 20 faces. |
| RatesCard.Percentages | src/components/RatesCard.tsx:107-112 | Each face is worth five percentage points, bucket by bucket, so the total is five times the face count. |
| RatesCard.TwentyFacesArePercentages | src/components/RatesCard.tsx:107-112 | Twenty non-negative whole faces become four multiples of 5 in [0, 100] that sum to exactly 100. |
| RatesCard.D20Rates | src/components/RatesCard.tsx:50-113 | A missing bonus or target gives the all-zero table. Otherwise every entry is a multiple of 5 in [0, 100] and the entries sum to 100. |
| RatesCard.Reclassify | src/components/RatesCard.tsx:116-125 | The total is preserved. Below level 6 the table is unchanged. From level 6, success is emptied into critical success. From level 8, critical failure is also emptied into failure. |
| RatesCard.SaveRates | src/components/RatesCard.tsx:115-126 | A save's table is a percentage table. It has no plain successes from level 6, and no critical failures from level 8. |
| RatesCard.StrikeRates | src/components/RatesCard.tsx:128-137 | All three strike tables are percentage tables. |
| FaceModel.Tally | src/components/RatesCard.tsx:56-105 | Counting faces `lo..hi` one at a time gives non-negative buckets that hold every face exactly once. |
| FaceModel.BaseBucketAgrees | src/components/RatesCard.tsx:56-73 | Each threshold-derived count for faces 2 to 19 equals the number of those faces whose own margin lands in that bucket. |
| FaceModel.MiddleFacesClosedForm | src/components/RatesCard.tsx:58-73 | If faces `2..hi` are classified by their margin, then the count in each bucket equals the closed form built from cumulative thresholds. |
| FaceModel.NaturalTwentyIsFaceTwenty | src/components/RatesCard.tsx:75-89 | The natural-20 step credits face 20 to its raw degree raised by one step. |
| FaceModel.NaturalOneIsFaceOne | src/components/RatesCard.tsx:91-105 | The natural-1 step credits face 1 to its raw degree lowered by one step, except that a raw critical success stays a critical success. |
| FaceModel.FaceCountAgrees | src/components/RatesCard.tsx:56-105 | For each outcome, the engine's count equals the number of faces 1 to 20 whose own outcome it is. |
| FaceModel.FaceCountsAgree | src/components/RatesCard.tsx:56-105 | The engine's face counts equal the face-by-face tally of the whole die. |
| FaceModel.D20RatesCountsEveryFace | src/components/RatesCard.tsx:56-112 | The rates are the face-by-face tally at five points a face: every face of the die is counted once, in the bucket of its own outcome. |
| FaceModel.NaturalOneIsTheOnlyDeparture | src/components/RatesCard.tsx:91-105 | The engine differs from the one-degree natural-roll rule exactly on a natural 1 whose total clears the target by ten or more (both directions). |
| FaceModel.CertainCriticalFromMarginNine | src/components/RatesCard.tsx:58-112 | A bonus nine or more above the target gives 100% critical success. |
| FaceModel.FaceOutcomeMonotone | src/components/RatesCard.tsx:58-105 | Raising the bonus never lowers any single face's degree of success. |
| FaceModel.CountsMonotone | src/components/RatesCard.tsx:58-105 | If no face does worse, then the critical-success count and the success-or-better count never drop, and the critical-failure count never rises. |
| FaceModel.TallyMonotone | src/components/RatesCard.tsx:58-105 | The same comparison as `CountsMonotone`, stated on whole tallies. |
| FaceModel.MoreBonusNeverHurts | src/components/RatesCard.tsx:58-112 | For any larger bonus against the same target, the critical-success rate and the success-or-better rate are no lower, and the critical-failure rate is no higher. |
| RatesProperties.OnlyTheMarginMatters | src/components/RatesCard.tsx:58-112 | Shifting bonus and target by the same amount leaves every rate unchanged. |
| RatesProperties.OneMorePointNeverHurts | src/components/RatesCard.tsx:58-112 | One more point of bonus never makes the rates worse. |
| RatesProperties.LaterStrikesNeverDoBetter | src/components/RatesCard.tsx:128-137 | The first strike equals the plain roll. For an agile reduction of at most 5, the second strike is no better than the first and the third no better than the second or the first. |
| RatesProperties.RelabelNeverWorsens | src/components/RatesCard.tsx:117-124 | The save reclassification never lowers an outcome's degree, and relabelling twice is the same as once. |
| RatesProperties.ReclassifyMovesWholeBuckets | src/components/RatesCard.tsx:116-125 | Reclassification moves each bucket whole to its relabelled outcome. This checks it against an outcome-by-outcome reference. |
| RatesProperties.ReclassifyIdempotent | src/components/RatesCard.tsx:115-126 | Reclassifying twice at the same level gives the same table as reclassifying once. |
| RatesProperties.ReclassifyComposes | src/components/RatesCard.tsx:115-126 | Reclassifying at one level and then another is the same as reclassifying once at the higher of the two. |
| RatesProperties.HigherSaveLevelNeverHurts | src/components/RatesCard.tsx:115-126 | A higher proficiency level never lowers the critical-success or success-or-better rate of a save, and never raises its critical-failure rate. |
| RatesProperties.FacesTwelveBelowTarget | src/components/RatesCard.tsx:56-105 | A roll twelve below its target, such as bonus 8 against 20, has 2 critical-failure faces, 9 failure faces, 8 success faces and 1 critical-success face. |
| RatesProperties.RatesTwelveBelowTarget | src/components/RatesCard.tsx:50-113 | Such a roll has rates of 10 / 45 / 40 / 5 percent. |
| RatesProperties.FacesFiveBelowTarget | src/components/RatesCard.tsx:56-105 | A roll five below its target, such as bonus 10 against 15, has faces split 1 / 3 / 10 / 6. |
| RatesProperties.SaveFiveBelowTarget | src/components/RatesCard.tsx:115-126 | That roll as a save is 5 / 15 / 50 / 30 at level 4, 5 / 15 / 0 / 80 at level 6, and 0 / 20 / 0 / 80 at level 8. |

## Left out

- The `RatesCard` React component and its JSX (src/components/RatesCard.tsx:139-154) only render. The `console.log` on a missing input (line 52) is an output side effect. Neither has behaviour to verify.
- The other UI components (player and enemy cards, pickers, checkboxes), `src/App.tsx`, `src/index.tsx` and `src/interfaces.ts` are form state, rendering and type declarations. They hold no computation of the engine. The enemy data table they load is not part of this model.
- Advantage and disadvantage (rolling two dice and keeping the better or worse outcome) do not appear in the source. The model has no such operation, so there is nothing to compare against.
- Computing the bonuses themselves (strike, armour class and save totals from class tables) is outside the engine, and its tables are not part of this model. The engine's bonus and target are parameters.
- Non-integer inputs are left out. Only for them do the fractional `clamp(0, x, 1)` shares and the floating-point rounding of `Math.round(n * 5 * 100) / 100` matter. The model restricts the bonus, target, level and agile reduction to integers.
- JavaScript numbers are modelled as unbounded integers. Inputs large enough to lose precision as doubles are not modelled.
- RatesProperties.LaterStrikesNeverDoBetter: requires an agile reduction of at most 5. A larger reduction makes a later strike's bonus higher than an earlier one's, and then the later strike can do better.
