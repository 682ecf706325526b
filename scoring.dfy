/**
 * Signal-detection scoring of the dual N-back trainer.
 *
 * Each modality (grid position, letter) keeps four counts. A trial that can
 * be compared against the trial N back resolves, per modality, to exactly
 * one outcome, decided by whether the cue matched and whether the player
 * pressed. Accuracy is computed from the counts and rounded to one decimal;
 * here it is an integer number of tenths of a percent.
 */
module Scoring {
  import opened Numbers

  /** The counts of one modality. */
  datatype ScoreDetail = ScoreDetail(hits: nat, misses: nat, falseAlarms: nat, correctRejections: nat)

  const ZERO: ScoreDetail := ScoreDetail(0, 0, 0, 0)

  datatype Outcome = Hit | Miss | FalseAlarm | CorrectRejection

  /** A press on a match is a hit, no press on it a miss; a press on a non-match a false alarm, no press a correct rejection. */
  function Classify(isMatch: bool, pressed: bool): (o: Outcome)
    ensures o == Hit || o == Miss <==> isMatch
    ensures o == Hit || o == FalseAlarm <==> pressed
  {
    if isMatch then (if pressed then Hit else Miss)
    else (if pressed then FalseAlarm else CorrectRejection)
  }

  /** The counter of `s` that outcome o increments. */
  function Count(s: ScoreDetail, o: Outcome): (n: nat)
  {
    match o
    case Hit => s.hits
    case Miss => s.misses
    case FalseAlarm => s.falseAlarms
    case CorrectRejection => s.correctRejections
  }

  /** Trials counted: the sum of the four counters. */
  function Total(s: ScoreDetail): (n: nat)
  {
    s.hits + s.misses + s.falseAlarms + s.correctRejections
  }

  /** One resolved trial recorded: the counter of its outcome goes up by one and no other changes. */
  function Record(s: ScoreDetail, o: Outcome): (r: ScoreDetail)
    ensures forall o': Outcome :: Count(r, o') == Count(s, o') + (if o' == o then 1 else 0)
    ensures Total(r) == Total(s) + 1
  {
    match o
    case Hit => s.(hits := s.hits + 1)
    case Miss => s.(misses := s.misses + 1)
    case FalseAlarm => s.(falseAlarms := s.falseAlarms + 1)
    case CorrectRejection => s.(correctRejections := s.correctRejections + 1)
  }

  /** The counts of a list of outcomes, recorded in order from zero. */
  function Tally(log: seq<Outcome>): (s: ScoreDetail)
    ensures Total(s) == |log|
  {
    if log == [] then ZERO else Record(Tally(log[..|log| - 1]), log[|log| - 1])
  }

  /** Each counter of the tally is the number of times its outcome occurs in the list. */
  lemma {:induction false} TallyCounts(log: seq<Outcome>, o: Outcome)
    ensures Count(Tally(log), o) == multiset(log)[o]
  {
    if log == [] {
      assert multiset(log) == multiset{};
    } else {
      var init := log[..|log| - 1];
      var last := log[|log| - 1];
      var before := Count(Tally(init), o);
      var bump := if last == o then 1 else 0;
      assert Count(Tally(log), o) == before + bump;
      assert multiset(log)[o] == multiset(init)[o] + bump by {
        assert log == init + [last];
      }
      assert before == multiset(init)[o] by {
        TallyCounts(init, o);
      }
    }
  }

  /** The tally of a list extended by one outcome records that outcome on the tally of the list. */
  lemma TallyAppend(log: seq<Outcome>, o: Outcome)
    ensures Tally(log + [o]) == Record(Tally(log), o)
  {
    assert (log + [o])[..|log|] == log;
  }

  /**
   * The late-press correction of the previous trial: a miss becomes a hit
   * when that trial matched, a correct rejection becomes a false alarm when
   * it did not.
   */
  function Regrade(s: ScoreDetail, wasMatch: bool): (r: ScoreDetail)
    requires wasMatch ==> s.misses > 0
    requires !wasMatch ==> s.correctRejections > 0
    ensures r.hits + r.misses == s.hits + s.misses
    ensures r.falseAlarms + r.correctRejections == s.falseAlarms + s.correctRejections
    ensures wasMatch ==> r.hits == s.hits + 1 && r.falseAlarms == s.falseAlarms && r.correctRejections == s.correctRejections
    ensures !wasMatch ==> r.falseAlarms == s.falseAlarms + 1 && r.hits == s.hits && r.misses == s.misses
  {
    if wasMatch then s.(misses := s.misses - 1, hits := s.hits + 1)
    else s.(correctRejections := s.correctRejections - 1, falseAlarms := s.falseAlarms + 1)
  }

  /**
   * The correction is exactly a re-resolution of the last trial as pressed:
   * regrading the tally in which it was resolved unpressed gives the tally
   * in which it was resolved pressed.
   */
  lemma RegradeIsPressedResolution(log: seq<Outcome>, isMatch: bool)
    ensures var before := Tally(log + [Classify(isMatch, false)]);
      && (isMatch ==> before.misses > 0)
      && (!isMatch ==> before.correctRejections > 0)
      && Regrade(before, isMatch) == Tally(log + [Classify(isMatch, true)])
  {
    var t := Tally(log);
    TallyAppend(log, Classify(isMatch, false));
    TallyAppend(log, Classify(isMatch, true));
    if isMatch {
      assert Tally(log + [Classify(isMatch, false)]) == t.(misses := t.misses + 1);
      assert Tally(log + [Classify(isMatch, true)]) == t.(hits := t.hits + 1);
    } else {
      assert Tally(log + [Classify(isMatch, false)]) == t.(correctRejections := t.correctRejections + 1);
      assert Tally(log + [Classify(isMatch, true)]) == t.(falseAlarms := t.falseAlarms + 1);
    }
  }

  /** Replacing the last outcome of a list by its pressed version, as the late-press correction does. */
  function PressLast(log: seq<(bool, bool)>): (r: seq<(bool, bool)>)
    requires log != []
    ensures |r| == |log| && r[..|r| - 1] == log[..|log| - 1]
    ensures r[|r| - 1] == (log[|log| - 1].0, true)
  {
    log[..|log| - 1] + [(log[|log| - 1].0, true)]
  }

  /** The outcomes of resolved trials given as (matched, pressed) pairs. */
  function Outcomes(log: seq<(bool, bool)>): (r: seq<Outcome>)
    ensures |r| == |log|
    ensures forall k :: 0 <= k < |log| ==> r[k] == Classify(log[k].0, log[k].1)
  {
    if log == [] then [] else Outcomes(log[..|log| - 1]) + [Classify(log[|log| - 1].0, log[|log| - 1].1)]
  }

  /**
   * The late-press correction applied to the tally of a log whose last trial
   * went unpressed is always defined, and equals the tally of the log with
   * that trial pressed.
   */
  lemma RegradeLast(log: seq<(bool, bool)>)
    requires log != [] && !log[|log| - 1].1
    ensures var before := Tally(Outcomes(log));
      && (log[|log| - 1].0 ==> before.misses > 0)
      && (!log[|log| - 1].0 ==> before.correctRejections > 0)
      && Regrade(before, log[|log| - 1].0) == Tally(Outcomes(PressLast(log)))
  {
    var init := log[..|log| - 1];
    var m := log[|log| - 1].0;
    assert Outcomes(log) == Outcomes(init) + [Classify(m, false)];
    assert Outcomes(PressLast(log)) == Outcomes(init) + [Classify(m, true)];
    RegradeIsPressedResolution(Outcomes(init), m);
  }

  /**
   * When every press agrees with the ground truth (a press exactly on the
   * matches) there are neither misses nor false alarms.
   */
  lemma {:induction false} PerfectPlay(log: seq<(bool, bool)>)
    requires forall k :: 0 <= k < |log| ==> log[k].1 == log[k].0
    ensures Tally(Outcomes(log)).misses == 0 && Tally(Outcomes(log)).falseAlarms == 0
  {
    var o := Outcomes(log);
    TallyCounts(o, Miss);
    TallyCounts(o, FalseAlarm);
    forall k | 0 <= k < |o| ensures o[k] != Miss && o[k] != FalseAlarm {
    }
    NotIn(o, Miss);
    NotIn(o, FalseAlarm);
  }

  lemma NotIn(s: seq<Outcome>, x: Outcome)
    requires forall k :: 0 <= k < |s| ==> s[k] != x
    ensures multiset(s)[x] == 0
  {
    assert x !in s;
  }

  // ---------------------------------------------------------------------
  // Accuracy

  /**
   * k is the value num / den rounded to the nearest integer, halves
   * upward (the rounding of a non-negative number to a fixed count of
   * decimals).
   */
  predicate RoundsHalfUp(num: int, den: int, k: int)
  {
    den > 0 && k * (2 * den) <= 2 * num + den < (k + 1) * (2 * den)
  }

  /** At most one integer is the rounding of num / den. */
  lemma RoundsHalfUpUnique(num: int, den: int, k1: int, k2: int)
    requires RoundsHalfUp(num, den, k1) && RoundsHalfUp(num, den, k2)
    ensures k1 == k2
  {
    if k1 < k2 {
      MulLe(k1 + 1, k2, 2 * den);
    } else if k2 < k1 {
      MulLe(k2 + 1, k1, 2 * den);
    }
  }

  lemma MulLe(a: int, b: int, c: int)
    requires a <= b && c >= 0
    ensures a * c <= b * c
  {
  }

  /** What the rounding of 1000 * d / t tells about the result, for the ranges of d that matter. */
  lemma RoundedShareBounds(d: int, t: int, k: int)
    requires t > 0 && RoundsHalfUp(1000 * d, t, k)
    ensures d <= t ==> k <= 1000
    ensures d == t ==> k == 1000
    ensures d <= 0 ==> k <= 0
    ensures d >= 0 ==> k >= 0
  {
    if d <= t && k > 1000 {
      MulLe(1001, k, 2 * t);
    }
    if d == t && k < 1000 {
      MulLe(k + 1, 1000, 2 * t);
    }
    if d <= 0 && k > 0 {
      MulLe(1, k, 2 * t);
    }
    if d >= 0 && k < 0 {
      MulLe(k + 1, 0, 2 * t);
    }
  }

  /** 1000 * d / t rounded to the nearest integer, halves upward. */
  function RoundedShare(d: int, t: int): (k: int)
    requires t > 0
    ensures RoundsHalfUp(1000 * d, t, k)
  {
    var k := (2000 * d + t) / (2 * t);
    DivBounds(2000 * d + t, 2 * t);
    k
  }

  /**
   * calculateAccuracy in tenths of a percent: 100 % without targets and
   * without false alarms, 0 % without targets but with false alarms, and
   * otherwise (1 - (misses + falseAlarms) / (hits + misses)) * 100 rounded to
   * one decimal and floored at 0.
   */
  function Accuracy(hits: nat, misses: nat, falseAlarms: nat): (tenths: int)
    ensures 0 <= tenths <= 1000
    ensures hits + misses == 0 ==> tenths == (if falseAlarms == 0 then 1000 else 0)
    ensures hits + misses > 0 && misses + falseAlarms >= hits + misses ==> tenths == 0
    ensures hits + misses > 0 && misses + falseAlarms <= hits + misses ==>
      RoundsHalfUp(1000 * (hits - falseAlarms), hits + misses, tenths)
    ensures misses == 0 && falseAlarms == 0 ==> tenths == 1000
  {
    var totalTargets := hits + misses;
    var errors := misses + falseAlarms;
    if totalTargets == 0 && falseAlarms == 0 then 1000
    else if totalTargets == 0 then 0
    else
      var k := RoundedShare(totalTargets - errors, totalTargets);
      RoundedShareBounds(totalTargets - errors, totalTargets, k);
      Max(0, k)
  }

  /** Euclidean division by a positive divisor brackets the dividend. */
  lemma DivBounds(a: int, b: int)
    requires b > 0
    ensures (a / b) * b <= a < (a / b + 1) * b
  {
  }

  /** One more false alarm never raises accuracy. */
  lemma AccuracyFalseAlarmMono(hits: nat, misses: nat, falseAlarms: nat)
    ensures Accuracy(hits, misses, falseAlarms + 1) <= Accuracy(hits, misses, falseAlarms)
  {
    var t := hits + misses;
    if t > 0 && misses + falseAlarms < t {
      var a := Accuracy(hits, misses, falseAlarms);
      var b := Accuracy(hits, misses, falseAlarms + 1);
      if b > a {
        MulLe(a + 1, b, 2 * t);
      }
    }
  }

  /** Turning a miss into a hit never lowers accuracy. */
  lemma AccuracyHitMono(hits: nat, misses: nat, falseAlarms: nat)
    requires misses > 0
    ensures Accuracy(hits, misses, falseAlarms) <= Accuracy(hits + 1, misses - 1, falseAlarms)
  {
    var t := hits + misses;
    var a := Accuracy(hits, misses, falseAlarms);
    var b := Accuracy(hits + 1, misses - 1, falseAlarms);
    if a > 0 && b < a {
      MulLe(b + 1, a, 2 * t);
    }
  }

  /**
   * The accuracy a finished session is judged by: the counts of both
   * modalities added together.
   */
  function SessionAccuracy(visual: ScoreDetail, audio: ScoreDetail): (tenths: int)
    ensures 0 <= tenths <= 1000
    ensures visual.misses + audio.misses + visual.falseAlarms + audio.falseAlarms == 0 ==> tenths == 1000
  {
    Accuracy(visual.hits + audio.hits, visual.misses + audio.misses, visual.falseAlarms + audio.falseAlarms)
  }
}
