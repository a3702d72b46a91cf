/**
 The outcome engine of the rates card: `clamp`, `getD20Rates`,
 `getSaveRates` and `getStrikeRates`, over integer inputs.
 */
module RatesCard {
  import opened Wrappers
  import opened Outcomes

  /** Distance between two integers. */
  function Gap(a: int, b: int): nat
  {
    if a >= b then a - b else b - a
  }

  /**
   `n` pulled into the range `[lo, hi]`. When the range is not empty the
   result is its point nearest to `n`, and `n` itself when `n` already lies in it.
   */
  function Clamp(lo: int, n: int, hi: int): (r: int)
    ensures lo <= hi ==> lo <= r <= hi
    ensures lo <= n <= hi ==> r == n
    ensures lo <= hi ==> forall y :: lo <= y <= hi ==> Gap(r, n) <= Gap(y, n)
  {
    if n < lo then lo
    else if n > hi then hi
    else n
  }

  /**
   Faces 2 to 19 of the die sorted into the four buckets. Three cumulative
   thresholds (the lowest face that crits, hits, or merely fails) are each
   turned into a face count and clamped to the faces not yet used; whatever
   remains critically fails.
   */
  function BaseCounts(proficiency: int, target: int): (c: Distribution)
    ensures c.NonNegative()
    ensures c.Total() == 18
  {
    var minToCrit := (target + 10) - proficiency;
    var sidesThatCritHit := Clamp(0, 19 - (minToCrit - 1), 18);
    var usedAfterCrit := sidesThatCritHit;

    var minToHit := target - proficiency;
    var sidesThatHit := Clamp(0, 19 - (minToHit - 1) - usedAfterCrit, 18 - usedAfterCrit);
    var usedAfterHit := usedAfterCrit + sidesThatHit;

    var minToFail := (target - 9) - proficiency;
    var sidesThatFail := Clamp(0, 19 - (minToFail - 1) - usedAfterHit, 18 - usedAfterHit);
    var usedAfterFail := usedAfterHit + sidesThatFail;

    Distribution(18 - usedAfterFail, sidesThatFail, sidesThatHit, sidesThatCritHit)
  }

  /**
   Credits face 20. The code splits the face between two neighbouring
   buckets by a share clamped to [0, 1]; with integer inputs the share is
   always a whole face, so exactly one bucket gains exactly one face.
   */
  function AddNatural20(c: Distribution, proficiency: int, target: int): (r: Distribution)
    ensures proficiency + 20 >= target ==> r == c.Add(CriticalSuccess, 1)
    ensures target - 9 <= proficiency + 20 < target ==> r == c.Add(Success, 1)
    ensures proficiency + 20 < target - 9 ==> r == c.Add(Failure, 1)
  {
    var nat20Value := proficiency + 20;
    if nat20Value > target - 1 then
      var share := Clamp(0, nat20Value - (target - 1), 1);
      c.(critSuccess := c.critSuccess + share, success := c.success + (1 - share))
    else if nat20Value > (target - 1) - 9 then
      var share := Clamp(0, nat20Value - (target - 1) + 9, 1);
      c.(success := c.success + share, failure := c.failure + (1 - share))
    else
      c.(failure := c.failure + 1)
  }

  /**
   Credits face 1, in the same whole-face way. As written, a natural 1 whose
   total still clears the target by ten goes to critical success (not to
   success, as a one-degree-worse rule would give).
   */
  function AddNatural1(c: Distribution, proficiency: int, target: int): (r: Distribution)
    ensures proficiency + 1 >= target + 10 ==> r == c.Add(CriticalSuccess, 1)
    ensures target <= proficiency + 1 < target + 10 ==> r == c.Add(Failure, 1)
    ensures proficiency + 1 < target ==> r == c.Add(CriticalFailure, 1)
  {
    var nat1Value := proficiency + 1;
    if nat1Value > (target - 1) + 10 then
      var share := Clamp(0, nat1Value - (target - 1) - 9, 1);
      c.(critSuccess := c.critSuccess + share, success := c.success + (1 - share))
    else if nat1Value > target - 1 then
      var share := Clamp(0, nat1Value - (target - 1), 1);
      c.(failure := c.failure + share, critFailure := c.critFailure + (1 - share))
    else
      c.(critFailure := c.critFailure + 1)
  }

  /**
   All twenty faces sorted into the four buckets: faces 2 to 19 by the
   thresholds, then the natural 20, then the natural 1.
   */
  function FaceCounts(proficiency: int, target: int): (c: Distribution)
    ensures c.NonNegative()
    ensures c.Total() == 20
  {
    AddNatural1(AddNatural20(BaseCounts(proficiency, target), proficiency, target), proficiency, target)
  }

  /**
   Face counts turned into percentages: each of the twenty faces is worth
   five percentage points. The source computes `Math.round(n * 5 * 100) / 100`,
   which for a whole number of faces `n` is exactly `5 * n`.
   */
  function Percentages(faces: Distribution): (r: Distribution)
    ensures r.Total() == 5 * faces.Total()
    ensures forall o :: r.Bucket(o) == 5 * faces.Bucket(o)
  {
    Distribution(5 * faces.critFailure, 5 * faces.failure, 5 * faces.success, 5 * faces.critSuccess)
  }

  /** Twenty whole faces, at five points each, make a percentage table. */
  lemma TwentyFacesArePercentages(faces: Distribution)
    requires faces.NonNegative() && faces.Total() == 20
    ensures IsPercentTable(Percentages(faces))
  {
  }

  /**
   `getD20Rates`: the percentage chance of each degree of success for a roll
   with bonus `proficiency` against `target`. A missing input yields the
   all-zero placeholder table.
   */
  function D20Rates(proficiency: Option<int>, target: Option<int>): (r: Distribution)
    ensures proficiency.None? || target.None? ==> r == Empty
    ensures proficiency.Some? && target.Some? ==> IsPercentTable(r)
  {
    if proficiency.None? || target.None? then Empty
    else
      var faces := FaceCounts(proficiency.value, target.value);
      TwentyFacesArePercentages(faces);
      Percentages(faces)
  }

  /**
   The reclassification `getSaveRates` applies for a save proficiency level:
   from level 6 every success is a critical success, and from level 8 every
   critical failure is only a failure.
   */
  function Reclassify(rates: Distribution, profLevel: int): (r: Distribution)
    ensures r.Total() == rates.Total()
    ensures profLevel < 6 ==> r == rates
    ensures profLevel >= 6 ==> r.success == 0 && r.critSuccess == rates.success + rates.critSuccess
    ensures 6 <= profLevel < 8 ==> r.critFailure == rates.critFailure && r.failure == rates.failure
    ensures profLevel >= 8 ==> r.critFailure == 0 && r.failure == rates.critFailure + rates.failure
  {
    var Distribution(cf, f, s, cs) := rates;
    if profLevel >= 6 then
      if profLevel >= 8 then Distribution(0, cf + f, 0, s + cs)
      else Distribution(cf, f, 0, s + cs)
    else rates
  }

  /** `getSaveRates`: the rates of a save, reclassified by the saver's proficiency level. */
  function SaveRates(prof: int, target: int, profLevel: int): (r: Distribution)
    ensures IsPercentTable(r)
    ensures profLevel >= 6 ==> r.success == 0
    ensures profLevel >= 8 ==> r.critFailure == 0
  {
    Reclassify(D20Rates(Some(prof), Some(target)), profLevel)
  }

  /**
   `getStrikeRates`: the rates of the first, second and third strike of a
   turn, whose bonus drops by the multiple-attack penalty of 5 and 10, less
   `agile` per step.
   */
  function StrikeRates(prof: int, target: int, agile: int := 0): (r: StrikeTable)
    ensures IsPercentTable(r.first) && IsPercentTable(r.second) && IsPercentTable(r.third)
  {
    StrikeTable(
      D20Rates(Some(prof), Some(target)),
      D20Rates(Some(prof - 5 + agile), Some(target)),
      D20Rates(Some(prof - 10 + (agile * 2)), Some(target)))
  }
}
