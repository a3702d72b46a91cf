/**
 The data model of the twenty-sided-die engine: the four degrees of success
 and the four-bucket table that holds either face counts or percentages.
 */
module Outcomes {

  /** The four degrees of success, listed worst first. */
  datatype Outcome = CriticalFailure | Failure | Success | CriticalSuccess

  /** Position of an outcome in the order CriticalFailure < Failure < Success < CriticalSuccess. */
  function Rank(o: Outcome): nat
  {
    match o
    case CriticalFailure => 0
    case Failure => 1
    case Success => 2
    case CriticalSuccess => 3
  }

  /** One degree better; critical success stays where it is. */
  function StepUp(o: Outcome): (r: Outcome)
    ensures Rank(r) == if o == CriticalSuccess then 3 else Rank(o) + 1
  {
    match o
    case CriticalFailure => Failure
    case Failure => Success
    case Success => CriticalSuccess
    case CriticalSuccess => CriticalSuccess
  }

  /** One degree worse; critical failure stays where it is. */
  function StepDown(o: Outcome): (r: Outcome)
    ensures Rank(r) == if o == CriticalFailure then 0 else Rank(o) - 1
  {
    match o
    case CriticalFailure => CriticalFailure
    case Failure => CriticalFailure
    case Success => Failure
    case CriticalSuccess => Success
  }

  /**
   Degree of success of a roll whose total exceeds the target number by
   `margin`: ten or more over is a critical success, meeting the target a
   success, missing by less than ten a failure, and missing by ten or more a
   critical failure.
   */
  function Classify(margin: int): Outcome
  {
    if margin >= 10 then CriticalSuccess
    else if margin >= 0 then Success
    else if margin > -10 then Failure
    else CriticalFailure
  }

  /**
   One value per outcome, in the source's tuple order
   `[critical failure, failure, success, critical success]`. The engine fills
   it first with die-face counts and then with percentages.
   */
  datatype Distribution = Distribution(critFailure: int, failure: int, success: int, critSuccess: int)
  {
    function Total(): int
    {
      critFailure + failure + success + critSuccess
    }

    /** The value held for outcome `o`. */
    function Bucket(o: Outcome): int
    {
      match o
      case CriticalFailure => critFailure
      case Failure => failure
      case Success => success
      case CriticalSuccess => critSuccess
    }

    /** Mass on outcomes at least as good as success. */
    function SuccessOrBetter(): int
    {
      success + critSuccess
    }

    predicate NonNegative()
    {
      critFailure >= 0 && failure >= 0 && success >= 0 && critSuccess >= 0
    }

    /** `n` more units of mass on outcome `o`. */
    function Add(o: Outcome, n: int): (r: Distribution)
      ensures r.Total() == Total() + n
      ensures NonNegative() && n >= 0 ==> r.NonNegative()
    {
      Distribution(
        critFailure + (if o == CriticalFailure then n else 0),
        failure + (if o == Failure then n else 0),
        success + (if o == Success then n else 0),
        critSuccess + (if o == CriticalSuccess then n else 0))
    }

  }

  /** Two tables that agree on every bucket are the same table. */
  lemma SameBuckets(a: Distribution, b: Distribution)
    requires a.critFailure == b.critFailure && a.failure == b.failure
    requires a.success == b.success && a.critSuccess == b.critSuccess
    ensures a == b
  {
  }

  /** Crediting `n` units to `o` changes bucket `o` by `n` and no other bucket. */
  lemma AddBucket(d: Distribution, o: Outcome, n: int, o': Outcome)
    ensures d.Add(o, n).Bucket(o') == d.Bucket(o') + (if o == o' then n else 0)
  {
  }

  /** The all-zero table. */
  const Empty := Distribution(0, 0, 0, 0)

  /** A percentage table the engine can produce: every entry a multiple of 5 in [0, 100], summing to 100. */
  predicate IsPercentTable(d: Distribution)
  {
    && 0 <= d.critFailure <= 100 && d.critFailure % 5 == 0
    && 0 <= d.failure <= 100 && d.failure % 5 == 0
    && 0 <= d.success <= 100 && d.success % 5 == 0
    && 0 <= d.critSuccess <= 100 && d.critSuccess % 5 == 0
    && d.Total() == 100
  }

  /**
   `after` is at least as good a roll as `before`: no less likely to
   critically succeed, no less likely to succeed at all, and no more likely
   to critically fail.
   */
  predicate NoWorse(after: Distribution, before: Distribution)
  {
    && after.critSuccess >= before.critSuccess
    && after.SuccessOrBetter() >= before.SuccessOrBetter()
    && after.critFailure <= before.critFailure
  }

  /** The three strikes of a turn, at multiple-attack penalty 0, 1 and 2. */
  datatype StrikeTable = StrikeTable(first: Distribution, second: Distribution, third: Distribution)
}
