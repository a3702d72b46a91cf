/**
 A face-by-face reference for the engine: every face of the die is given its
 own outcome and the faces are counted one at a time, with no cumulative
 thresholds and no clamping. The lemmas here show that `D20Rates` is
 exactly this count.
 */
module FaceModel {
  import opened Wrappers
  import opened Outcomes
  import opened RatesCard

  /**
   The outcome of rolling `face` with bonus `proficiency` against `target`,
   as the rates card resolves it: faces 2 to 19 by their margin alone, a
   natural 20 one degree better, and a natural 1 one degree worse unless its
   margin alone already makes it a critical success.
   */
  function FaceOutcome(proficiency: int, target: int, face: int): Outcome
  {
    var raw := Classify(proficiency + face - target);
    if face == 20 then StepUp(raw)
    else if face == 1 then (if raw == CriticalSuccess then CriticalSuccess else StepDown(raw))
    else raw
  }

  /** The usual natural-roll rule: a natural 20 one degree better, a natural 1 one degree worse. */
  function StandardFaceOutcome(proficiency: int, target: int, face: int): Outcome
  {
    var raw := Classify(proficiency + face - target);
    if face == 20 then StepUp(raw)
    else if face == 1 then StepDown(raw)
    else raw
  }

  /** How many of the faces `lo..hi` land in outcome `o`, when face `f` lands in `outcomeOf(f)`. */
  function CountOf(outcomeOf: int -> Outcome, o: Outcome, lo: int, hi: int): nat
    decreases hi - lo
  {
    if hi < lo then 0
    else CountOf(outcomeOf, o, lo, hi - 1) + (if outcomeOf(hi) == o then 1 else 0)
  }

  /** Every face of `lo..hi` lands in exactly one of the four outcomes. */
  lemma {:induction false} CountsCoverRange(outcomeOf: int -> Outcome, lo: int, hi: int)
    requires lo <= hi + 1
    ensures CountOf(outcomeOf, CriticalFailure, lo, hi) + CountOf(outcomeOf, Failure, lo, hi)
            + CountOf(outcomeOf, Success, lo, hi) + CountOf(outcomeOf, CriticalSuccess, lo, hi)
            == hi - lo + 1
    decreases hi - lo
  {
    if lo <= hi {
      CountsCoverRange(outcomeOf, lo, hi - 1);
    }
  }

  /** The four counts over faces `lo..hi`, as a table. */
  function Tally(outcomeOf: int -> Outcome, lo: int, hi: int): (c: Distribution)
    requires lo <= hi + 1
    ensures c.NonNegative()
    ensures c.Total() == hi - lo + 1
  {
    CountsCoverRange(outcomeOf, lo, hi);
    Distribution(
      CountOf(outcomeOf, CriticalFailure, lo, hi),
      CountOf(outcomeOf, Failure, lo, hi),
      CountOf(outcomeOf, Success, lo, hi),
      CountOf(outcomeOf, CriticalSuccess, lo, hi))
  }

  /** The lowest face of a range can be split off as well as the highest. */
  lemma {:induction false} SplitLowestFace(outcomeOf: int -> Outcome, o: Outcome, lo: int, hi: int)
    requires lo <= hi
    ensures CountOf(outcomeOf, o, lo, hi)
            == CountOf(outcomeOf, o, lo + 1, hi) + (if outcomeOf(lo) == o then 1 else 0)
    decreases hi - lo
  {
    if lo < hi {
      SplitLowestFace(outcomeOf, o, lo, hi - 1);
    }
  }

  /** Number of faces in `2..hi` that are at least `k`. */
  function FacesFrom(hi: int, k: int): int
  {
    if k > hi then 0
    else if k <= 2 then hi - 1
    else hi - k + 1
  }

  /**
   Closed form of the count over faces `2..hi` for a bonus `margin` above the
   target: each bucket is the difference of two "faces at least k" counts,
   at the faces where the margin reaches 10, 0 and -9.
   */
  function MiddleCounts(margin: int, hi: int): Distribution
  {
    var crit := FacesFrom(hi, 10 - margin);
    var hit := FacesFrom(hi, -margin);
    var notCritFail := FacesFrom(hi, -9 - margin);
    Distribution((hi - 1) - notCritFail, notCritFail - hit, hit - crit, crit)
  }

  /** Face `hi` joins the closed form in the bucket of its own margin. */
  lemma MiddleCountsStep(margin: int, hi: int, o: Outcome)
    requires 2 <= hi
    ensures MiddleCounts(margin, hi).Bucket(o)
            == MiddleCounts(margin, hi - 1).Bucket(o) + (if Classify(margin + hi) == o then 1 else 0)
  {
  }

  /** Counting faces `2..hi` one by one by their margin agrees with the closed form. */
  lemma {:induction false} MiddleFacesClosedForm(outcomeOf: int -> Outcome, margin: int, hi: int, o: Outcome)
    requires 1 <= hi
    requires forall face :: 2 <= face <= hi ==> outcomeOf(face) == Classify(margin + face)
    ensures CountOf(outcomeOf, o, 2, hi) == MiddleCounts(margin, hi).Bucket(o)
  {
    if hi > 1 {
      MiddleFacesClosedForm(outcomeOf, margin, hi - 1, o);
      MiddleCountsStep(margin, hi, o);
      assert outcomeOf(hi) == Classify(margin + hi);
    }
  }

  /** The clamped threshold counts of the rates card are the closed form over faces 2 to 19. */
  lemma BaseCountsAreMiddleCounts(proficiency: int, target: int)
    ensures BaseCounts(proficiency, target) == MiddleCounts(proficiency - target, 19)
  {
  }

  /** The face-by-face rule for a bonus and a target, as a function of the face. */
  function FaceRule(proficiency: int, target: int): int -> Outcome
  {
    face => FaceOutcome(proficiency, target, face)
  }

  /** The rates card's natural-20 step credits face 20 with its face-by-face outcome. */
  lemma NaturalTwentyIsFaceTwenty(c: Distribution, proficiency: int, target: int)
    ensures AddNatural20(c, proficiency, target) == c.Add(FaceOutcome(proficiency, target, 20), 1)
  {
  }

  /** The rates card's natural-1 step credits face 1 with its face-by-face outcome. */
  lemma NaturalOneIsFaceOne(c: Distribution, proficiency: int, target: int)
    ensures AddNatural1(c, proficiency, target) == c.Add(FaceOutcome(proficiency, target, 1), 1)
  {
  }

  /** One bucket of the threshold counts over faces 2 to 19, against the face-by-face count. */
  lemma BaseBucketAgrees(proficiency: int, target: int, o: Outcome)
    ensures BaseCounts(proficiency, target).Bucket(o) == CountOf(FaceRule(proficiency, target), o, 2, 19)
  {
    MiddleFacesClosedForm(FaceRule(proficiency, target), proficiency - target, 19, o);
    BaseCountsAreMiddleCounts(proficiency, target);
  }

  /** The count over the whole die is the count over faces 2 to 19 plus the two natural rolls. */
  lemma WholeDie(outcomeOf: int -> Outcome, o: Outcome)
    ensures CountOf(outcomeOf, o, 1, 20)
            == CountOf(outcomeOf, o, 2, 19) + (if outcomeOf(1) == o then 1 else 0) + (if outcomeOf(20) == o then 1 else 0)
  {
    SplitLowestFace(outcomeOf, o, 1, 19);
  }

  /** One bucket of the rates card's face counts, against the face-by-face count. */
  lemma FaceCountAgrees(proficiency: int, target: int, o: Outcome)
    ensures FaceCounts(proficiency, target).Bucket(o) == CountOf(FaceRule(proficiency, target), o, 1, 20)
  {
    var base := BaseCounts(proficiency, target);
    var top := FaceOutcome(proficiency, target, 20);
    var bottom := FaceOutcome(proficiency, target, 1);
    BaseBucketAgrees(proficiency, target, o);
    WholeDie(FaceRule(proficiency, target), o);
    assert FaceRule(proficiency, target)(20) == top && FaceRule(proficiency, target)(1) == bottom;
    NaturalTwentyIsFaceTwenty(base, proficiency, target);
    NaturalOneIsFaceOne(base.Add(top, 1), proficiency, target);
    AddBucket(base, top, 1, o);
    AddBucket(base.Add(top, 1), bottom, 1, o);
  }

  /** The rates card's face counts are the face-by-face counts. */
  lemma FaceCountsAgree(proficiency: int, target: int)
    ensures FaceCounts(proficiency, target) == Tally(FaceRule(proficiency, target), 1, 20)
  {
    FaceCountAgrees(proficiency, target, CriticalFailure);
    FaceCountAgrees(proficiency, target, Failure);
    FaceCountAgrees(proficiency, target, Success);
    FaceCountAgrees(proficiency, target, CriticalSuccess);
    SameBuckets(FaceCounts(proficiency, target), Tally(FaceRule(proficiency, target), 1, 20));
  }

  /**
   `getD20Rates` on two integers gives five points to every face of the die,
   in the bucket of that face's own outcome.
   */
  lemma D20RatesCountsEveryFace(proficiency: int, target: int)
    ensures D20Rates(Some(proficiency), Some(target)) == Percentages(Tally(FaceRule(proficiency, target), 1, 20))
  {
    FaceCountsAgree(proficiency, target);
  }

  /**
   The rates card departs from the usual natural-roll rule on exactly one
   face: a natural 1 whose total still clears the target by ten or more.
   */
  lemma NaturalOneIsTheOnlyDeparture(proficiency: int, target: int, face: int)
    requires 1 <= face <= 20
    ensures FaceOutcome(proficiency, target, face) != StandardFaceOutcome(proficiency, target, face)
            <==> face == 1 && proficiency + 1 >= target + 10
  {
  }

  /**
   As a consequence of that departure, a bonus nine or more above the
   target is a certain critical success: no face, the natural 1 included,
   yields anything else.
   */
  lemma CertainCriticalFromMarginNine(proficiency: int, target: int)
    requires proficiency - target >= 9
    ensures D20Rates(Some(proficiency), Some(target)) == Distribution(0, 0, 0, 100)
  {
  }

  /** A larger bonus never gives any single face a worse outcome. */
  lemma FaceOutcomeMonotone(lower: int, higher: int, target: int, face: int)
    requires lower <= higher
    ensures Rank(FaceOutcome(lower, target, face)) <= Rank(FaceOutcome(higher, target, face))
  {
  }

  /** If every face of `lo..hi` does at least as well under `better` as under `worse`, so do the counts. */
  lemma {:induction false} CountsMonotone(worse: int -> Outcome, better: int -> Outcome, lo: int, hi: int)
    requires forall face :: lo <= face <= hi ==> Rank(worse(face)) <= Rank(better(face))
    ensures CountOf(better, CriticalSuccess, lo, hi) >= CountOf(worse, CriticalSuccess, lo, hi)
    ensures CountOf(better, Success, lo, hi) + CountOf(better, CriticalSuccess, lo, hi)
            >= CountOf(worse, Success, lo, hi) + CountOf(worse, CriticalSuccess, lo, hi)
    ensures CountOf(better, CriticalFailure, lo, hi) <= CountOf(worse, CriticalFailure, lo, hi)
    decreases hi - lo
  {
    if lo <= hi {
      CountsMonotone(worse, better, lo, hi - 1);
      assert Rank(worse(hi)) <= Rank(better(hi));
    }
  }

  /** The same, stated on the tables. */
  lemma TallyMonotone(worse: int -> Outcome, better: int -> Outcome, lo: int, hi: int)
    requires lo <= hi + 1
    requires forall face :: lo <= face <= hi ==> Rank(worse(face)) <= Rank(better(face))
    ensures NoWorse(Tally(better, lo, hi), Tally(worse, lo, hi))
  {
    CountsMonotone(worse, better, lo, hi);
  }

  /** A larger bonus never makes the rates worse. */
  lemma MoreBonusNeverHurts(lower: int, higher: int, target: int)
    requires lower <= higher
    ensures NoWorse(D20Rates(Some(higher), Some(target)), D20Rates(Some(lower), Some(target)))
  {
    var worse, better := FaceRule(lower, target), FaceRule(higher, target);
    forall face | 1 <= face <= 20
      ensures Rank(worse(face)) <= Rank(better(face))
    {
      FaceOutcomeMonotone(lower, higher, target, face);
    }
    TallyMonotone(worse, better, 1, 20);
    D20RatesCountsEveryFace(lower, target);
    D20RatesCountsEveryFace(higher, target);
  }
}
