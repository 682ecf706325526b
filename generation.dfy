/**
 * Trial-sequence generation for the dual N-back trainer.
 *
 * A session is a list of trials; each trial shows one of the nine grid
 * cells and plays one of eight letters, and carries the lag N it is to be
 * compared against. Every call of the browser's random-number generator is
 * replaced by one value of an injected stream, consumed in the order the
 * generator makes its calls, so equal streams give equal sequences.
 */
module Generation {

  const LETTERS: seq<char> := ['c', 'h', 'k', 'l', 'q', 'r', 's', 't']
  const GRID_SIZE: nat := 9
  const CENTER_INDEX: nat := 4
  const MATCH_RATE: real := 0.25

  /** One trial: grid cell, letter, and the lag that applies to it. */
  datatype Step = Step(position: int, letter: char, nBack: nat)

  /** rand(k) is the value returned by the k-th call of the random source. */
  type Random = nat -> real

  /** The random source returns values in [0, 1). */
  ghost predicate IsUnitStream(rand: Random)
  {
    forall k: nat :: 0.0 <= rand(k) < 1.0
  }

  /** A value together with the position of the next unused random draw. */
  datatype Drawn<T> = Drawn(value: T, next: nat)

  predicate Distinct<T(==)>(s: seq<T>)
  {
    forall i, j :: 0 <= i < j < |s| ==> s[i] != s[j]
  }

  /** The grid cells 0 .. 8, in order. */
  function Cells(): (s: seq<int>)
    ensures |s| == GRID_SIZE && Distinct(s)
    ensures forall p :: p in s <==> 0 <= p < GRID_SIZE as int
  {
    [0, 1, 2, 3, 4, 5, 6, 7, 8]
  }

  lemma LettersDistinct()
    ensures Distinct(LETTERS) && |LETTERS| == 8
  {
  }

  /** The elements of s other than x, in their original order (a filter). */
  function Remove<T(==, !new)>(s: seq<T>, x: T): (r: seq<T>)
    ensures forall y :: y in r <==> y in s && y != x
    ensures x !in s ==> r == s
    ensures Distinct(s) ==> Distinct(r) && |s| <= |r| + 1
  {
    if s == [] then []
    else
      var rest := Remove(s[1..], x);
      assert Distinct(s) ==> Distinct(s[1..]) && s[0] !in s[1..] by {
        if Distinct(s) {
          forall i, j | 0 <= i < j < |s[1..]| ensures s[1..][i] != s[1..][j] {
            assert s[1..][i] == s[i + 1] && s[1..][j] == s[j + 1];
          }
          forall j | 0 <= j < |s[1..]| ensures s[1..][j] != s[0] {
            assert s[1..][j] == s[j + 1];
          }
        }
      }
      if s[0] == x then rest
      else
        var r := [s[0]] + rest;
        assert Distinct(s) ==> Distinct(r) by {
          if Distinct(s) {
            forall i, j | 0 <= i < j < |r| ensures r[i] != r[j] {
              assert r[j] == rest[j - 1] && rest[j - 1] in rest;
              if i > 0 {
                assert r[i] == rest[i - 1];
              }
            }
          }
        }
        r
  }

  /** The position of the first occurrence of x in s. */
  function IndexOf<T(==)>(s: seq<T>, x: T): (i: nat)
    requires x in s
    ensures i < |s| && s[i] == x && x !in s[..i]
  {
    if s[0] == x then 0
    else
      var k := IndexOf(s[1..], x);
      assert s[..k + 1] == [s[0]] + s[1..][..k];
      k + 1
  }

  lemma DistinctTail<T>(s: seq<T>)
    requires Distinct(s) && s != []
    ensures Distinct(s[1..]) && s[0] !in s[1..]
  {
    forall i, j | 0 <= i < j < |s[1..]| ensures s[1..][i] != s[1..][j] {
      assert s[1..][i] == s[i + 1] && s[1..][j] == s[j + 1];
    }
    forall j | 0 <= j < |s[1..]| ensures s[1..][j] != s[0] {
      assert s[1..][j] == s[j + 1];
    }
  }

  /**
   * The filter keeps the order: on a list without repeats, removing an
   * element that occurs cuts out exactly its position and closes the gap.
   */
  lemma {:induction false} RemoveKeepsOrder<T(!new)>(s: seq<T>, x: T)
    requires Distinct(s) && x in s
    ensures Remove(s, x) == s[..IndexOf(s, x)] + s[IndexOf(s, x) + 1..]
  {
    DistinctTail(s);
    if s[0] == x {
      RemoveAtHead(s, x);
    } else {
      var k := IndexOf(s[1..], x);
      assert Remove(s[1..], x) == s[1..][..k] + s[1..][k + 1..] by {
        RemoveKeepsOrder(s[1..], x);
      }
      RemovePastHead(s, x, k);
    }
  }

  /** Removing the head of a list that holds it only once leaves the tail. */
  lemma RemoveAtHead<T(!new)>(s: seq<T>, x: T)
    requires s != [] && s[0] == x && x !in s[1..]
    ensures IndexOf(s, x) == 0 && Remove(s, x) == s[..0] + s[1..]
  {
    assert Remove(s, x) == Remove(s[1..], x);
  }

  /** Removing past the head keeps the head in front of what is kept of the tail. */
  lemma RemovePastHead<T(!new)>(s: seq<T>, x: T, k: nat)
    requires s != [] && s[0] != x && x in s[1..] && k == IndexOf(s[1..], x)
    requires Remove(s[1..], x) == s[1..][..k] + s[1..][k + 1..]
    ensures IndexOf(s, x) == k + 1
    ensures Remove(s, x) == s[..k + 1] + s[k + 2..]
  {
    RemoveSkipHead(s, x);
    CutPastHead(s, k);
  }

  /** Cutting out position k + 1 of s is keeping the head and cutting position k of the tail. */
  lemma CutPastHead<T>(s: seq<T>, k: nat)
    requires k + 1 < |s|
    ensures [s[0]] + (s[1..][..k] + s[1..][k + 1..]) == s[..k + 1] + s[k + 2..]
  {
    assert s[..k + 1] == [s[0]] + s[1..][..k];
    assert s[k + 2..] == s[1..][k + 1..];
  }

  lemma RemoveSkipHead<T(!new)>(s: seq<T>, x: T)
    requires s != [] && s[0] != x
    ensures Remove(s, x) == [s[0]] + Remove(s[1..], x)
  {
  }

  /** Math.floor(r * len): a uniform index into a list of length len. */
  function ScaledIndex(r: real, len: nat): (k: nat)
    requires 0.0 <= r < 1.0 && len > 0
    ensures k < len
  {
    var x := r * len as real;
    assert 0.0 <= x < len as real by {
      assert r * len as real <= 1.0 * len as real;
      assert r * len as real != len as real;
    }
    x.Floor
  }

  // ---------------------------------------------------------------------
  // Lag selection: cumulative thresholds and the pick

  /** Sum of the weights (a reduce with +). */
  function Sum(w: seq<nat>): (total: nat)
  {
    if w == [] then 0 else Sum(w[..|w| - 1]) + w[|w| - 1]
  }

  /**
   * Cumulative thresholds: the k-th is the share of the weights up to and
   * including k, or 0 everywhere when the weights sum to 0.
   */
  function Thresholds(w: seq<nat>): (t: seq<real>)
    ensures |t| == |w|
  {
    var sum := Sum(w);
    if sum == 0 then seq(|w|, _ => 0.0)
    else seq(|w|, k requires 0 <= k < |w| => Sum(w[..k + 1]) as real / sum as real)
  }

  lemma {:induction false} SumPrefixMono(w: seq<nat>, i: nat, j: nat)
    requires i <= j <= |w|
    ensures Sum(w[..i]) <= Sum(w[..j])
    decreases j - i
  {
    if i < j {
      SumPrefixMono(w, i, j - 1);
      assert w[..j][..j - 1] == w[..j - 1];
    }
  }

  lemma SumPrefixStep(w: seq<nat>, k: nat)
    requires k < |w|
    ensures Sum(w[..k + 1]) == Sum(w[..k]) + w[k]
  {
    assert w[..k + 1][..k] == w[..k];
  }

  /** The k-th threshold, spelled out. */
  lemma ThresholdAt(w: seq<nat>, k: nat)
    requires k < |w|
    ensures Thresholds(w)[k] == if Sum(w) == 0 then 0.0 else Sum(w[..k + 1]) as real / Sum(w) as real
  {
  }

  /** With a positive total every threshold is a share in [0, 1], and the last is exactly 1. */
  lemma ThresholdBounds(w: seq<nat>, k: nat)
    requires Sum(w) > 0 && k < |w|
    ensures 0.0 <= Thresholds(w)[k] <= 1.0
    ensures k == |w| - 1 ==> Thresholds(w)[k] == 1.0
  {
    ThresholdAt(w, k);
    SumPrefixMono(w, k + 1, |w|);
    assert w[..|w|] == w;
    DivideBounds(Sum(w[..k + 1]), Sum(w));
    if k == |w| - 1 {
      DivideSelf(Sum(w));
    }
  }

  lemma DivideSelf(a: nat)
    requires a > 0
    ensures a as real / a as real == 1.0
  {
  }

  /** With a positive total the thresholds never decrease. */
  lemma ThresholdMono(w: seq<nat>, i: nat, j: nat)
    requires Sum(w) > 0 && i <= j < |w|
    ensures Thresholds(w)[i] <= Thresholds(w)[j]
  {
    ThresholdAt(w, i);
    ThresholdAt(w, j);
    SumPrefixMono(w, i + 1, j + 1);
    DivideMono(Sum(w[..i + 1]), Sum(w[..j + 1]), Sum(w));
  }

  /** The threshold of lag j is the share of the first j weights. */
  lemma ThresholdPrefix(w: seq<nat>, j: nat)
    requires Sum(w) > 0 && 0 < j <= |w|
    ensures Thresholds(w)[j - 1] == Sum(w[..j]) as real / Sum(w) as real
  {
    ThresholdAt(w, j - 1);
    assert w[..(j - 1) + 1] == w[..j];
  }

  lemma DivideBounds(a: nat, b: nat)
    requires 0 < b && a <= b
    ensures 0.0 <= a as real / b as real <= 1.0
  {
  }

  lemma DivideMono(a: nat, b: nat, c: nat)
    requires 0 < c && a <= b
    ensures a as real / c as real <= b as real / c as real
  {
  }

  lemma AddShares(a: nat, b: nat, x: nat, c: nat)
    requires 0 < c && x == a + b
    ensures a as real / c as real + b as real / c as real == x as real / c as real
  {
  }

  lemma ShareLess(a: nat, b: nat, c: nat)
    requires 0 < c && a as real / c as real < b as real / c as real
    ensures a < b
  {
  }

  /**
   * The pick scanning from index i: the first k >= i whose threshold lies
   * above r gives lag k + 1; when there is none the result is |t|.
   */
  function PickFrom(t: seq<real>, r: real, i: nat): (k: nat)
    requires i <= |t|
    ensures i < |t| ==> i < k <= |t|
    ensures i == |t| ==> k == |t|
    ensures forall j :: i <= j < k - 1 ==> t[j] <= r
    ensures k == |t| || r < t[k - 1]
    decreases |t| - i
  {
    if i == |t| then |t|
    else if r < t[i] then i + 1
    else PickFrom(t, r, i + 1)
  }

  function Pick(t: seq<real>, r: real): (k: nat)
  {
    PickFrom(t, r, 0)
  }

  /**
   * pickNFromWeights: the lag whose threshold interval holds r; thresholds
   * of length L give a lag in 1 .. L (0 only for an empty list).
   */
  method PickN(thresholds: seq<real>, r: real) returns (k: nat)
    ensures k == Pick(thresholds, r)
    ensures |thresholds| == 0 <==> k == 0
    ensures |thresholds| > 0 ==> 1 <= k <= |thresholds|
    ensures forall j :: 0 <= j < k - 1 ==> thresholds[j] <= r
    ensures k == |thresholds| || r < thresholds[k - 1]
  {
    var i := 0;
    while i < |thresholds|
      invariant 0 <= i <= |thresholds|
      invariant PickFrom(thresholds, r, i) == PickFrom(thresholds, r, 0)
    {
      if r < thresholds[i] {
        return i + 1;
      }
      i := i + 1;
    }
    return |thresholds|;
  }

  /**
   * getProbabilityThresholds: the accumulator walks the weights and records
   * each running share.
   */
  method ProbabilityThresholds(weights: seq<nat>) returns (t: seq<real>)
    ensures t == Thresholds(weights)
  {
    var sum := Sum(weights);
    if sum == 0 {
      return seq(|weights|, _ => 0.0);
    }
    var acc := 0.0;
    t := [];
    for i := 0 to |weights|
      invariant |t| == i
      invariant acc == Sum(weights[..i]) as real / sum as real
      invariant forall k :: 0 <= k < i ==> t[k] == Thresholds(weights)[k]
    {
      SumPrefixStep(weights, i);
      AddShares(Sum(weights[..i]), weights[i], Sum(weights[..i + 1]), sum);
      ThresholdAt(weights, i);
      acc := acc + weights[i] as real / sum as real;
      t := t + [acc];
    }
  }

  /** With weights summing to 0 every threshold is 0, so the pick is always the largest lag. */
  lemma PickZeroSum(w: seq<nat>, r: real)
    requires Sum(w) == 0 && 0.0 <= r
    ensures Pick(Thresholds(w), r) == |w|
  {
  }

  /** With a positive total and r in [0, 1) the pick never lands on a lag of weight 0. */
  lemma PickHasWeight(w: seq<nat>, r: real)
    requires Sum(w) > 0 && 0.0 <= r < 1.0
    ensures var k := Pick(Thresholds(w), r); 1 <= k <= |w| && w[k - 1] > 0
  {
    var t := Thresholds(w);
    var k := Pick(t, r);
    assert 1 <= k <= |w| && r < t[k - 1] by {
      ThresholdBounds(w, |w| - 1);
    }
    assert Sum(w[..k]) == Sum(w[..k - 1]) + w[k - 1] by {
      SumPrefixStep(w, k - 1);
      assert w[..k - 1 + 1] == w[..k];
    }
    if k > 1 {
      assert Sum(w[..k - 1]) < Sum(w[..k]) by {
        assert t[k - 2] <= r;
        ThresholdPrefix(w, k);
        ThresholdPrefix(w, k - 1);
        ShareLess(Sum(w[..k - 1]), Sum(w[..k]), Sum(w));
      }
    } else {
      assert Sum(w[..k]) > 0 by {
        ThresholdPrefix(w, k);
        PositiveShare(Sum(w[..k]), Sum(w));
      }
      assert w[..0] == [];
    }
  }

  lemma PositiveShare(a: nat, b: nat)
    requires b > 0 && a as real / b as real > 0.0
    ensures a > 0
  {
  }

  // ---------------------------------------------------------------------
  // Drawing one trial

  datatype Params = Params(length: nat, maxN: nat, useCenter: bool, isVariable: bool, weights: seq<nat>)

  /**
   * What the generator needs of its caller: a lag of at least 1 and, in
   * variable mode, between 1 and maxN weights (the session passes exactly
   * maxN of them).
   */
  predicate ParamsOk(g: Params)
  {
    g.maxN >= 1 && (g.isVariable ==> 1 <= |g.weights| <= g.maxN)
  }

  /** The centre cell is excluded in variable mode (it shows the lag) and when it is switched off. */
  predicate NoCenter(g: Params)
  {
    g.isVariable || !g.useCenter
  }

  /** The lag of trial i: maxN, or, in variable mode past the first maxN trials, one pick. */
  function LagDraw(g: Params, t: seq<real>, i: nat, rand: Random, c: nat): (d: Drawn<nat>)
    requires ParamsOk(g) && |t| == |g.weights|
    ensures 1 <= d.value <= g.maxN
    ensures !(g.isVariable && i >= g.maxN) ==> d.value == g.maxN
    ensures d.next == if g.isVariable && i >= g.maxN then c + 1 else c
  {
    if g.isVariable && i >= g.maxN then
      var k := Pick(t, rand(c));
      Drawn(k, c + 1)
    else Drawn(g.maxN, c)
  }

  /**
   * The cell of one of the first maxN trials. When the centre is excluded
   * a first draw over all nine cells is made and discarded, and a second
   * draw picks among the eight others.
   */
  function FirstPosition(noCenter: bool, rand: Random, c: nat): (d: Drawn<int>)
    requires IsUnitStream(rand)
    ensures 0 <= d.value < GRID_SIZE as int
    ensures noCenter ==> d.value != CENTER_INDEX as int
    ensures d.next == if noCenter then c + 2 else c + 1
  {
    var pos := ScaledIndex(rand(c), GRID_SIZE);
    if noCenter then
      var candidates := Remove(Cells(), CENTER_INDEX as int);
      var p := candidates[ScaledIndex(rand(c + 1), |candidates|)];
      assert p in candidates;
      Drawn(p, c + 2)
    else Drawn(pos, c + 1)
  }

  function FirstLetter(rand: Random, c: nat): (d: Drawn<char>)
    requires IsUnitStream(rand)
    ensures d.value in LETTERS && d.next == c + 1
  {
    Drawn(LETTERS[ScaledIndex(rand(c), |LETTERS|)], c + 1)
  }

  /**
   * The cell of a later trial: with a draw below the match rate it repeats
   * the reference cell, otherwise it is drawn from the other cells (and not
   * the centre when that is excluded).
   */
  function NextPosition(ref: int, noCenter: bool, rand: Random, c: nat): (d: Drawn<int>)
    requires IsUnitStream(rand)
    ensures d.value == ref <==> rand(c) < MATCH_RATE
    ensures rand(c) >= MATCH_RATE ==> 0 <= d.value < GRID_SIZE as int
    ensures rand(c) >= MATCH_RATE && noCenter ==> d.value != CENTER_INDEX as int
    ensures d.next == if rand(c) < MATCH_RATE then c + 1 else c + 2
  {
    if rand(c) < MATCH_RATE then Drawn(ref, c + 1)
    else
      var others := Remove(Cells(), ref);
      var candidates := if noCenter then Remove(others, CENTER_INDEX as int) else others;
      var p := candidates[ScaledIndex(rand(c + 1), |candidates|)];
      assert p in candidates;
      Drawn(p, c + 2)
  }

  /** The letter of a later trial: the reference letter repeated, or one of the other letters. */
  function NextLetter(ref: char, rand: Random, c: nat): (d: Drawn<char>)
    requires IsUnitStream(rand)
    ensures d.value == ref <==> rand(c) < MATCH_RATE
    ensures rand(c) >= MATCH_RATE ==> d.value in LETTERS
    ensures d.next == if rand(c) < MATCH_RATE then c + 1 else c + 2
  {
    if rand(c) < MATCH_RATE then Drawn(ref, c + 1)
    else
      LettersDistinct();
      var candidates := Remove(LETTERS, ref);
      var l := candidates[ScaledIndex(rand(c + 1), |candidates|)];
      assert l in candidates;
      Drawn(l, c + 2)
  }

  /** The draw after the position roll p: the letter roll. */
  function LetterRollAfter(rand: Random, p: nat): (roll: nat)
  {
    if rand(p) < MATCH_RATE then p + 1 else p + 2
  }

  /** One of the first maxN trials: a free cell and letter, and lag maxN. */
  function FirstTrial(maxN: nat, noCenter: bool, rand: Random, c: nat): (d: Drawn<Step>)
    requires IsUnitStream(rand)
    ensures d.value.nBack == maxN
    ensures 0 <= d.value.position < GRID_SIZE as int && d.value.letter in LETTERS
    ensures noCenter ==> d.value.position != CENTER_INDEX as int
  {
    var pos := FirstPosition(noCenter, rand, c);
    var letter := FirstLetter(rand, pos.next);
    Drawn(Step(pos.value, letter.value, maxN), letter.next)
  }

  /**
   * A later trial with lag `lag` against the reference trial ref, its
   * position roll at draw c: each cue repeats the reference's exactly when
   * its roll is below the match rate, and otherwise is a valid cue.
   */
  function LaterTrial(ref: Step, lag: nat, noCenter: bool, rand: Random, c: nat): (d: Drawn<Step>)
    requires IsUnitStream(rand)
    ensures d.value.nBack == lag
    ensures d.value.position == ref.position <==> rand(c) < MATCH_RATE
    ensures d.value.letter == ref.letter <==> rand(LetterRollAfter(rand, c)) < MATCH_RATE
    ensures rand(c) >= MATCH_RATE ==> 0 <= d.value.position < GRID_SIZE as int
    ensures rand(c) >= MATCH_RATE && noCenter ==> d.value.position != CENTER_INDEX as int
    ensures rand(LetterRollAfter(rand, c)) >= MATCH_RATE ==> d.value.letter in LETTERS
  {
    var pos := NextPosition(ref.position, noCenter, rand, c);
    var letter := NextLetter(ref.letter, rand, pos.next);
    Drawn(Step(pos.value, letter.value, lag), letter.next)
  }

  /** Trial number |prefix|, drawn after the trials of prefix, starting with draw c. */
  function TrialAt(prefix: seq<Step>, g: Params, t: seq<real>, rand: Random, c: nat): (d: Drawn<Step>)
    requires ParamsOk(g) && IsUnitStream(rand) && |t| == |g.weights|
  {
    var i := |prefix|;
    var lag := LagDraw(g, t, i, rand, c);
    if i < g.maxN then FirstTrial(g.maxN, NoCenter(g), rand, lag.next)
    else LaterTrial(prefix[i - lag.value], lag.value, NoCenter(g), rand, lag.next)
  }

  /** TrialAt, read with its lag draw already made. */
  lemma TrialAtLag(prefix: seq<Step>, g: Params, t: seq<real>, rand: Random, c: nat)
    requires ParamsOk(g) && IsUnitStream(rand) && |t| == |g.weights|
    ensures var lag := LagDraw(g, t, |prefix|, rand, c);
      TrialAt(prefix, g, t, rand, c) ==
        if |prefix| < g.maxN then FirstTrial(g.maxN, NoCenter(g), rand, lag.next)
        else LaterTrial(prefix[|prefix| - lag.value], lag.value, NoCenter(g), rand, lag.next)
  {
  }

  /** The first i trials and the position of the next unused draw. */
  function Build(g: Params, rand: Random, i: nat): (b: Drawn<seq<Step>>)
    requires ParamsOk(g) && IsUnitStream(rand)
    ensures |b.value| == i
  {
    if i == 0 then Drawn([], 0)
    else
      var b := Build(g, rand, i - 1);
      var d := TrialAt(b.value, g, Thresholds(g.weights), rand, b.next);
      Drawn(b.value + [d.value], d.next)
  }

  lemma BuildNext(g: Params, rand: Random, i: nat)
    requires ParamsOk(g) && IsUnitStream(rand)
    ensures var b := Build(g, rand, i);
      var d := TrialAt(b.value, g, Thresholds(g.weights), rand, b.next);
      Build(g, rand, i + 1) == Drawn(b.value + [d.value], d.next)
  {
  }

  /** The sequence a session of g.length trials is given. */
  function Generated(g: Params, rand: Random): (steps: seq<Step>)
    requires ParamsOk(g) && IsUnitStream(rand)
  {
    Build(g, rand, g.length).value
  }

  // ---------------------------------------------------------------------
  // Structural properties of generated sequences

  /** What holds of trial k of a sequence generated with g. */
  predicate StepOk(s: Step, k: nat, g: Params)
  {
    && 1 <= s.nBack <= g.maxN
    && (k < g.maxN || !g.isVariable ==> s.nBack == g.maxN)
    && 0 <= s.position < GRID_SIZE as int
    && s.letter in LETTERS
    && (NoCenter(g) ==> s.position != CENTER_INDEX as int)
  }

  predicate WellFormed(s: seq<Step>, g: Params)
  {
    forall k :: 0 <= k < |s| ==> StepOk(s[k], k, g)
  }

  /** A trial drawn after a well-formed prefix keeps it well-formed. */
  lemma TrialOk(prefix: seq<Step>, g: Params, t: seq<real>, rand: Random, c: nat)
    requires ParamsOk(g) && IsUnitStream(rand) && |t| == |g.weights|
    requires WellFormed(prefix, g)
    ensures StepOk(TrialAt(prefix, g, t, rand, c).value, |prefix|, g)
  {
    var i := |prefix|;
    var lag := LagDraw(g, t, i, rand, c);
    if i >= g.maxN {
      var ref := prefix[i - lag.value];
      assert StepOk(ref, i - lag.value, g);
    }
  }

  lemma {:induction false} BuildWellFormed(g: Params, rand: Random, i: nat)
    requires ParamsOk(g) && IsUnitStream(rand)
    ensures WellFormed(Build(g, rand, i).value, g)
  {
    if i > 0 {
      var b := Build(g, rand, i - 1);
      BuildWellFormed(g, rand, i - 1);
      TrialOk(b.value, g, Thresholds(g.weights), rand, b.next);
    }
  }

  /** Trials, once drawn, are not changed by drawing more. */
  lemma {:induction false} BuildPrefix(g: Params, rand: Random, i: nat, j: nat)
    requires ParamsOk(g) && IsUnitStream(rand) && j <= i
    ensures Build(g, rand, i).value[..j] == Build(g, rand, j).value
    decreases i
  {
    if j < i {
      BuildPrefix(g, rand, i - 1, j);
      var b := Build(g, rand, i - 1).value;
      assert Build(g, rand, i).value[..i - 1] == b;
      assert Build(g, rand, i).value[..j] == b[..j];
    } else {
      assert Build(g, rand, i).value[..i] == Build(g, rand, i).value;
    }
  }

  /** Every structural property of a generated sequence. */
  lemma GeneratedWellFormed(g: Params, rand: Random)
    requires ParamsOk(g) && IsUnitStream(rand)
    ensures var s := Generated(g, rand);
      && |s| == g.length
      && WellFormed(s, g)
      && (forall i :: g.maxN <= i < |s| ==> 0 <= i - s[i].nBack < i)
  {
    BuildWellFormed(g, rand, g.length);
  }

  /** Index of the draw that decides whether trial i repeats its reference cell. */
  function PositionRoll(g: Params, rand: Random, i: nat): (roll: nat)
    requires ParamsOk(g) && IsUnitStream(rand)
  {
    Build(g, rand, i).next + if g.isVariable && i >= g.maxN then 1 else 0
  }

  /** Index of the draw that decides whether trial i repeats its reference letter. */
  function LetterRoll(g: Params, rand: Random, i: nat): (roll: nat)
    requires ParamsOk(g) && IsUnitStream(rand)
  {
    LetterRollAfter(rand, PositionRoll(g, rand, i))
  }

  /** Trial i of the generated sequence is the trial drawn after the first i. */
  lemma GeneratedAt(g: Params, rand: Random, i: nat)
    requires ParamsOk(g) && IsUnitStream(rand) && i < g.length
    ensures var b := Build(g, rand, i);
      && Generated(g, rand)[..i] == b.value
      && Generated(g, rand)[i] == TrialAt(b.value, g, Thresholds(g.weights), rand, b.next).value
  {
    var s := Generated(g, rand);
    BuildPrefix(g, rand, g.length, i + 1);
    var b1 := Build(g, rand, i + 1).value;
    assert s[..i + 1] == b1;
    assert s[..i] == s[..i + 1][..i];
    assert s[i] == s[..i + 1][i];
  }

  /**
   * Trial d, drawn after prefix with its position roll at draw p, has a
   * reference inside prefix and repeats the reference's cell (letter)
   * exactly when the position (letter) roll is below the match rate.
   */
  predicate RepeatsAsRolled(prefix: seq<Step>, d: Step, rand: Random, p: nat)
  {
    && 1 <= d.nBack <= |prefix|
    && (d.position == prefix[|prefix| - d.nBack].position <==> rand(p) < MATCH_RATE)
    && (d.letter == prefix[|prefix| - d.nBack].letter <==> rand(LetterRollAfter(rand, p)) < MATCH_RATE)
  }

  lemma TrialRepeats(prefix: seq<Step>, g: Params, t: seq<real>, rand: Random, c: nat, p: nat)
    requires ParamsOk(g) && IsUnitStream(rand) && |t| == |g.weights|
    requires |prefix| >= g.maxN && p == c + if g.isVariable then 1 else 0
    ensures RepeatsAsRolled(prefix, TrialAt(prefix, g, t, rand, c).value, rand, p)
  {
    var i := |prefix|;
    var lag := LagDraw(g, t, i, rand, c);
    var d := LaterTrial(prefix[i - lag.value], lag.value, NoCenter(g), rand, lag.next);
    assert TrialAt(prefix, g, t, rand, c) == d;
    assert RepeatsAsRolled(prefix, d.value, rand, lag.next);
  }

  /**
   * From trial maxN on, a trial's cell equals the cell of the trial nBack
   * places earlier exactly when its position roll fell below the match rate,
   * and likewise for the letter: a non-repeating draw never coincides with
   * the reference by accident.
   */
  lemma GeneratedRepeats(g: Params, rand: Random, i: nat)
    requires ParamsOk(g) && IsUnitStream(rand)
    requires g.maxN <= i < g.length
    ensures var s := Generated(g, rand);
      && 1 <= s[i].nBack <= i
      && (s[i].position == s[i - s[i].nBack].position <==> rand(PositionRoll(g, rand, i)) < MATCH_RATE)
      && (s[i].letter == s[i - s[i].nBack].letter <==> rand(LetterRoll(g, rand, i)) < MATCH_RATE)
  {
    var s := Generated(g, rand);
    var b := Build(g, rand, i);
    var d := TrialAt(b.value, g, Thresholds(g.weights), rand, b.next).value;
    var p := PositionRoll(g, rand, i);
    assert s[..i] == b.value && s[i] == d by {
      GeneratedAt(g, rand, i);
    }
    assert RepeatsAsRolled(b.value, d, rand, p) by {
      assert p == b.next + if g.isVariable then 1 else 0;
      TrialRepeats(b.value, g, Thresholds(g.weights), rand, b.next, p);
    }
    RepeatsAt(s, i, b.value, d, rand, p);
  }

  /** RepeatsAsRolled, read at index i of a sequence whose first i trials are prefix. */
  lemma RepeatsAt(s: seq<Step>, i: nat, prefix: seq<Step>, d: Step, rand: Random, p: nat)
    requires i < |s| && s[..i] == prefix && s[i] == d
    requires RepeatsAsRolled(prefix, d, rand, p)
    ensures 1 <= s[i].nBack <= i
    ensures s[i].position == s[i - s[i].nBack].position <==> rand(p) < MATCH_RATE
    ensures s[i].letter == s[i - s[i].nBack].letter <==> rand(LetterRollAfter(rand, p)) < MATCH_RATE
  {
    assert s[i - d.nBack] == prefix[i - d.nBack];
  }

  // ---------------------------------------------------------------------
  // The generator as the source runs it

  /**
   * One iteration of generateSequence's loop: trial i = |s| drawn after the
   * trials s, from draw c on: the lag first (variable mode, from trial maxN
   * on), then the cues.
   */
  method DrawTrial(s: seq<Step>, thresholds: seq<real>, g: Params, rand: Random, c: nat)
    returns (step: Step, next: nat)
    requires ParamsOk(g) && IsUnitStream(rand)
    requires thresholds == Thresholds(g.weights)
    ensures Drawn(step, next) == TrialAt(s, g, thresholds, rand, c)
  {
    var i := |s|;
    var currentN := g.maxN;
    next := c;
    if g.isVariable && i >= g.maxN {
      currentN := PickN(thresholds, rand(next));
      next := next + 1;
    }
    assert LagDraw(g, thresholds, i, rand, c) == Drawn(currentN, next);
    TrialAtLag(s, g, thresholds, rand, c);
    var forbiddenCenter := g.isVariable || !g.useCenter;
    var d;
    if i < g.maxN {
      d := FirstTrial(g.maxN, forbiddenCenter, rand, next);
    } else {
      d := LaterTrial(s[i - currentN], currentN, forbiddenCenter, rand, next);
    }
    step, next := d.value, d.next;
  }

  /**
   * generateSequence: one pass over the trial indices, pushing one trial at
   * a time; the random draws are taken in the source's order.
   */
  method GenerateSequence(length: nat, maxN: nat, useCenter: bool, isVariable: bool, weights: seq<nat>, rand: Random)
    returns (s: seq<Step>)
    requires ParamsOk(Params(length, maxN, useCenter, isVariable, weights))
    requires IsUnitStream(rand)
    ensures s == Generated(Params(length, maxN, useCenter, isVariable, weights), rand)
    ensures |s| == length
    ensures WellFormed(s, Params(length, maxN, useCenter, isVariable, weights))
  {
    var g := Params(length, maxN, useCenter, isVariable, weights);
    s := [];
    var thresholds := ProbabilityThresholds(weights);
    var c: nat := 0;
    for i := 0 to length
      invariant Build(g, rand, i) == Drawn(s, c)
    {
      var step;
      step, c := DrawTrial(s, thresholds, g, rand, c);
      BuildNext(g, rand, i);
      s := s + [step];
    }
    GeneratedWellFormed(g, rand);
  }
}
