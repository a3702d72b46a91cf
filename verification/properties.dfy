/**
 Properties of the engine that relate several calls: only the margin of the
 bonus over the target matters, a larger bonus never hurts, later strikes
 never do better, and the save reclassification is a coarsening that can be
 applied once or many times to the same effect.
 */
module RatesProperties {
  import opened Wrappers
  import opened Outcomes
  import opened RatesCard
  import opened FaceModel

  /** Raising bonus and target together leaves every rate unchanged. */
  lemma OnlyTheMarginMatters(proficiency: int, target: int, shift: int)
    ensures D20Rates(Some(proficiency + shift), Some(target + shift)) == D20Rates(Some(proficiency), Some(target))
  {
  }

  /** One more point of bonus never makes the roll worse. */
  lemma OneMorePointNeverHurts(proficiency: int, target: int)
    ensures NoWorse(D20Rates(Some(proficiency + 1), Some(target)), D20Rates(Some(proficiency), Some(target)))
  {
    MoreBonusNeverHurts(proficiency, proficiency + 1, target);
  }

  /**
   The first strike of a turn is the plain roll, and while the agile
   reduction is at most the penalty step of 5, each later strike is no
   better than the one before.
   */
  lemma LaterStrikesNeverDoBetter(prof: int, target: int, agile: int)
    requires agile <= 5
    ensures StrikeRates(prof, target, agile).first == D20Rates(Some(prof), Some(target))
    ensures NoWorse(StrikeRates(prof, target, agile).first, StrikeRates(prof, target, agile).second)
    ensures NoWorse(StrikeRates(prof, target, agile).second, StrikeRates(prof, target, agile).third)
    ensures NoWorse(StrikeRates(prof, target, agile).first, StrikeRates(prof, target, agile).third)
  {
    forall lower: int, higher: int | lower <= higher
      ensures NoWorse(D20Rates(Some(higher), Some(target)), D20Rates(Some(lower), Some(target)))
    {
      MoreBonusNeverHurts(lower, higher, target);
    }
  }

  /** Where the save reclassification at `profLevel` sends a roll of outcome `o`. */
  function Relabel(o: Outcome, profLevel: int): Outcome
  {
    if profLevel >= 6 && o == Success then CriticalSuccess
    else if profLevel >= 8 && o == CriticalFailure then Failure
    else o
  }

  /** The mass of `rates` moved outcome by outcome to where `Relabel` sends it. */
  function Relabelled(rates: Distribution, profLevel: int): Distribution
  {
    Empty
      .Add(Relabel(CriticalFailure, profLevel), rates.critFailure)
      .Add(Relabel(Failure, profLevel), rates.failure)
      .Add(Relabel(Success, profLevel), rates.success)
      .Add(Relabel(CriticalSuccess, profLevel), rates.critSuccess)
  }

  /** The reclassification never makes an outcome worse. */
  lemma RelabelNeverWorsens(o: Outcome, profLevel: int)
    ensures Rank(Relabel(o, profLevel)) >= Rank(o)
    ensures Relabel(Relabel(o, profLevel), profLevel) == Relabel(o, profLevel)
  {
  }

  /** At level 8 and above, the relabelled mass lands in failure and critical success only. */
  lemma RelabelledTopTier(rates: Distribution, profLevel: int)
    requires profLevel >= 8
    ensures Relabelled(rates, profLevel) == Reclassify(rates, profLevel)
  {
    var Distribution(cf, f, s, cs) := rates;
    var step1 := Empty.Add(Failure, cf);
    assert step1 == Distribution(0, cf, 0, 0);
    var step3 := step1.Add(Failure, f).Add(CriticalSuccess, s);
    assert step3 == Distribution(0, cf + f, 0, s);
    assert Relabelled(rates, profLevel) == step3.Add(CriticalSuccess, cs);
  }

  /** At levels 6 and 7, only success is relabelled, as critical success. */
  lemma RelabelledMiddleTier(rates: Distribution, profLevel: int)
    requires 6 <= profLevel < 8
    ensures Relabelled(rates, profLevel) == Reclassify(rates, profLevel)
  {
    var Distribution(cf, f, s, cs) := rates;
    var step1 := Empty.Add(CriticalFailure, cf);
    assert step1 == Distribution(cf, 0, 0, 0);
    var step3 := step1.Add(Failure, f).Add(CriticalSuccess, s);
    assert step3 == Distribution(cf, f, 0, s);
    assert Relabelled(rates, profLevel) == step3.Add(CriticalSuccess, cs);
  }

  /** Below level 6 nothing is relabelled. */
  lemma RelabelledLowTier(rates: Distribution, profLevel: int)
    requires profLevel < 6
    ensures Relabelled(rates, profLevel) == Reclassify(rates, profLevel)
  {
    var Distribution(cf, f, s, cs) := rates;
    var step1 := Empty.Add(CriticalFailure, cf);
    assert step1 == Distribution(cf, 0, 0, 0);
    var step3 := step1.Add(Failure, f).Add(Success, s);
    assert step3 == Distribution(cf, f, s, 0);
    assert Relabelled(rates, profLevel) == step3.Add(CriticalSuccess, cs);
  }

  /** `getSaveRates` reclassifies outcome by outcome: each bucket's mass moves whole to its relabelled outcome. */
  lemma ReclassifyMovesWholeBuckets(rates: Distribution, profLevel: int)
    ensures Reclassify(rates, profLevel) == Relabelled(rates, profLevel)
  {
    if profLevel >= 8 {
      RelabelledTopTier(rates, profLevel);
    } else if profLevel >= 6 {
      RelabelledMiddleTier(rates, profLevel);
    } else {
      RelabelledLowTier(rates, profLevel);
    }
  }

  /** Reclassifying twice at the same level is the same as once. */
  lemma ReclassifyIdempotent(rates: Distribution, profLevel: int)
    ensures Reclassify(Reclassify(rates, profLevel), profLevel) == Reclassify(rates, profLevel)
  {
  }

  /** Reclassifying at two levels in turn is reclassifying once at the higher level. */
  lemma ReclassifyComposes(rates: Distribution, first: int, second: int)
    ensures Reclassify(Reclassify(rates, first), second)
            == Reclassify(rates, if first >= second then first else second)
  {
  }

  /** A save at a higher proficiency level never does worse than the same save at a lower one. */
  lemma HigherSaveLevelNeverHurts(prof: int, target: int, lower: int, higher: int)
    requires lower <= higher
    ensures NoWorse(SaveRates(prof, target, higher), SaveRates(prof, target, lower))
  {
  }

  /** On two integers, the rates are the face counts at five points a face. */
  lemma RatesFromFaces(proficiency: int, target: int)
    ensures D20Rates(Some(proficiency), Some(target)) == Percentages(FaceCounts(proficiency, target))
  {
  }

  /**
   A roll twelve below its target, such as a bonus of 8 against 20: faces
   1 and 2 critically fail, 3 to 11 fail, 12 to 19 succeed and the natural
   20 is critical.
   */
  lemma FacesTwelveBelowTarget(proficiency: int, target: int)
    requires proficiency - target == -12
    ensures FaceCounts(proficiency, target) == Distribution(2, 9, 8, 1)
  {
    var base := BaseCounts(proficiency, target);
    assert base == Distribution(1, 9, 8, 0);
    assert AddNatural20(base, proficiency, target) == Distribution(1, 9, 8, 1);
  }

  /** The rates of such a roll: 10, 45, 40 and 5 percent. */
  lemma RatesTwelveBelowTarget(proficiency: int, target: int)
    requires proficiency - target == -12
    ensures D20Rates(Some(proficiency), Some(target)) == Distribution(10, 45, 40, 5)
  {
    FacesTwelveBelowTarget(proficiency, target);
    RatesFromFaces(proficiency, target);
  }

  /**
   A roll five below its target, such as a bonus of 10 against 15: one
   critical failure, 3 failures, 10 successes and 6 critical successes.
   */
  lemma FacesFiveBelowTarget(proficiency: int, target: int)
    requires proficiency - target == -5
    ensures FaceCounts(proficiency, target) == Distribution(1, 3, 10, 6)
  {
    var base := BaseCounts(proficiency, target);
    assert base == Distribution(0, 3, 10, 5);
    assert AddNatural20(base, proficiency, target) == Distribution(0, 3, 10, 6);
  }

  /** Such a roll as a save, reclassified at levels 4, 6 and 8. */
  lemma SaveFiveBelowTarget(prof: int, target: int)
    requires prof - target == -5
    ensures SaveRates(prof, target, 4) == Distribution(5, 15, 50, 30)
    ensures SaveRates(prof, target, 6) == Distribution(5, 15, 0, 80)
    ensures SaveRates(prof, target, 8) == Distribution(0, 20, 0, 80)
  {
    FacesFiveBelowTarget(prof, target);
    RatesFromFaces(prof, target);
  }
}
