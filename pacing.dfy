/**
 * Dynamic pacing: in the dynamic pacing mode the time between trials is a
 * running interval that grows by 0.1 s after a trial with an error and
 * shrinks by 0.05 s after a trial with a hit and no error, kept between
 * max(0.1 s, interval - 0.5 s) and interval + 1.0 s. The source rounds every
 * intermediate value to two decimals; here all intervals are integers in
 * hundredths of a second, so that rounding is exact.
 */
module Pacing {
  import opened Numbers

  datatype PacingMode = Standard | SelfPaced | Dynamic

  /** Default base interval: 3.0 s. */
  const DEFAULT_INTERVAL: nat := 300

  /** The shortest running interval: max(0.1 s, interval - 0.5 s). */
  function Lowest(base: int): (low: int)
  {
    Max(10, base - 50)
  }

  /** The longest running interval: interval + 1.0 s. */
  function Highest(base: int): (high: int)
  {
    base + 100
  }

  predicate InRange(cur: int, base: int)
  {
    Lowest(base) <= cur <= Highest(base)
  }

  /**
   * The running interval after a trial: an error pushes it up by 0.1 s but
   * not below the base interval nor above its ceiling; a hit without an
   * error pulls it down by 0.05 s but not below its floor; otherwise it
   * stays.
   */
  function NextInterval(cur: int, base: int, hasError: bool, hasHit: bool): (next: int)
    ensures hasError ==> base <= next <= Highest(base)
    ensures hasError && base <= cur + 10 <= Highest(base) ==> next == cur + 10
    ensures hasError && cur + 10 < base ==> next == base
    ensures hasError && cur + 10 > Highest(base) ==> next == Highest(base)
    ensures !hasError && hasHit ==> next >= Lowest(base) && next <= Max(cur, Lowest(base))
    ensures !hasError && hasHit && cur - 5 >= Lowest(base) ==> next == cur - 5
    ensures !hasError && hasHit && cur - 5 < Lowest(base) ==> next == Lowest(base)
    ensures !hasError && !hasHit ==> next == cur
  {
    if hasError then
      var rawNext := cur + 10;
      var clampedMin := Max(rawNext, base);
      var absoluteMax := base + 100;
      Min(clampedMin, absoluteMax)
    else if hasHit then
      var rawNext := cur - 5;
      var absoluteMin := Max(10, base - 50);
      Max(rawNext, absoluteMin)
    else cur
  }

  /** A base interval of at least 0.1 s lies in its own range, so the first trial starts in range. */
  lemma BaseInRange(base: int)
    requires base >= 10
    ensures InRange(base, base)
  {
  }

  /** One update keeps the running interval in range. */
  lemma NextInRange(cur: int, base: int, hasError: bool, hasHit: bool)
    requires base >= 10 && InRange(cur, base)
    ensures InRange(NextInterval(cur, base, hasError, hasHit), base)
  {
  }

  /** The outcome flags of one resolved trial. */
  datatype TrialFlags = TrialFlags(hasError: bool, hasHit: bool)

  /** The running interval after a run of trials, from cur. */
  function Drift(cur: int, base: int, trials: seq<TrialFlags>): (interval: int)
  {
    if trials == [] then cur
    else
      var last := trials[|trials| - 1];
      NextInterval(Drift(cur, base, trials[..|trials| - 1]), base, last.hasError, last.hasHit)
  }

  /** However the trials go, the running interval never leaves its range. */
  lemma {:induction false} DriftInRange(cur: int, base: int, trials: seq<TrialFlags>)
    requires base >= 10 && InRange(cur, base)
    ensures InRange(Drift(cur, base, trials), base)
  {
    if trials != [] {
      var last := trials[|trials| - 1];
      DriftInRange(cur, base, trials[..|trials| - 1]);
      NextInRange(Drift(cur, base, trials[..|trials| - 1]), base, last.hasError, last.hasHit);
    }
  }

  /** k hit-only trials in a row shorten the interval by 0.05 s each until the floor is reached. */
  lemma {:induction false} HitRun(cur: int, base: int, trials: seq<TrialFlags>)
    requires forall k :: 0 <= k < |trials| ==> trials[k] == TrialFlags(false, true)
    ensures |trials| > 0 ==> Drift(cur, base, trials) == Max(cur - 5 * |trials|, Lowest(base))
  {
    if |trials| > 1 {
      HitRun(cur, base, trials[..|trials| - 1]);
    }
  }
}
