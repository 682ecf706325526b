/**
 * Integer rules of the cultivation layer: session length per round mode,
 * breakthrough targets, and the effective strength of focus and foundation
 * pills used at a bottleneck stage.
 *
 * A cultivation level is a realm (0, 1, 2, ...) and a stage 0..7 inside it;
 * stages 1, 3 and 5 are the bottlenecks (peaks of the early, middle and late
 * sub-realms). Pills carry the realm and sub-realm (0..4) they were made for.
 */
module Cultivation {

  datatype RoundMode = StandardRounds | LinearRounds | CustomRounds

  /**
   * Number of trials in a session: 20 + n*n in standard mode, 20 + 4n in
   * linear mode, the custom count (at least 1) in custom mode.
   */
  function RoundCount(n: int, mode: RoundMode, custom: int): (r: int)
    ensures mode == CustomRounds ==> r >= 1 && (custom >= 1 ==> r == custom)
    ensures mode != CustomRounds && n >= 1 ==> r >= n + 20
  {
    match mode
    case LinearRounds => 20 + 4 * n
    case CustomRounds => if custom >= 1 then custom else 1
    case StandardRounds => 20 + n * n
  }

  /** Standard sessions are shorter than linear ones for n = 1..3, equal at 0 and 4, longer above 4. */
  lemma StandardVersusLinear(n: int)
    requires n >= 0
    ensures 0 < n < 4 ==> RoundCount(n, StandardRounds, 0) < RoundCount(n, LinearRounds, 0)
    ensures n == 0 ==> RoundCount(n, StandardRounds, 0) == RoundCount(n, LinearRounds, 0)
    ensures n == 4 ==> RoundCount(n, StandardRounds, 0) == RoundCount(n, LinearRounds, 0)
    ensures n > 4 ==> RoundCount(n, StandardRounds, 0) > RoundCount(n, LinearRounds, 0)
  {
    assert n * n - 4 * n == n * (n - 4);
    if n > 4 {
      assert n * (n - 4) > 0 by { MulPositive(n, n - 4); }
    } else if 0 < n < 4 {
      assert n * (4 - n) > 0 by { MulPositive(n, 4 - n); }
    }
  }

  lemma MulPositive(a: int, b: int)
    requires a > 0 && b > 0
    ensures a * b > 0
  {
  }

  function Pow10(k: nat): (p: nat)
    ensures p >= 1
  {
    if k == 0 then 1 else 10 * Pow10(k - 1)
  }

  predicate IsBottleneck(stage: int)
  {
    stage == 1 || stage == 3 || stage == 5
  }

  /**
   * Experience needed to break through a bottleneck of a realm: 10^realm at
   * the early peak, twice that at the middle peak, four times at the late
   * peak; 0 at any other stage.
   */
  function BreakthroughTarget(realm: nat, stage: int): (t: nat)
    ensures !IsBottleneck(stage) <==> t == 0
    ensures stage == 3 ==> t == 2 * BreakthroughTarget(realm, 1)
    ensures stage == 5 ==> t == 2 * BreakthroughTarget(realm, 3)
  {
    var power := Pow10(realm);
    if stage == 1 then 1 * power
    else if stage == 3 then 2 * power
    else if stage == 5 then 4 * power
    else 0
  }

  /** Each realm's targets are ten times the previous realm's. */
  lemma BreakthroughNextRealm(realm: nat, stage: int)
    ensures BreakthroughTarget(realm + 1, stage) == 10 * BreakthroughTarget(realm, stage)
  {
  }

  /** Breakthrough targets grow strictly with the realm at every bottleneck. */
  lemma {:induction false} BreakthroughMono(r1: nat, r2: nat, stage: int)
    requires r1 < r2 && IsBottleneck(stage)
    ensures BreakthroughTarget(r1, stage) < BreakthroughTarget(r2, stage)
  {
    BreakthroughNextRealm(r2 - 1, stage);
    if r1 < r2 - 1 {
      BreakthroughMono(r1, r2 - 1, stage);
    }
  }

  datatype PillGrade = Low | Mid | High | Peak | Human | Earth | Heaven | Virtual | Real

  /** The sub-realm a bottleneck stage belongs to: 1 -> 0, 3 -> 1, 5 -> 2. */
  function SubRealmOf(stage: int): (s: int)
    requires IsBottleneck(stage)
    ensures 0 <= s <= 2 && stage == 2 * s + 1
  {
    (stage - 1) / 2
  }

  /** Grade value of a focus pill as made: low 0, mid 1, high 2; any other grade counts as 0. */
  function BaseGradeValue(g: PillGrade): (v: int)
    ensures 0 <= v <= 2
    ensures v == 2 <==> g == High
    ensures v == 1 <==> g == Mid
  {
    if g == Mid then 1 else if g == High then 2 else 0
  }

  datatype FocusEffect = FocusNotAtBottleneck | FocusTooWeak | FocusGrade(grade: int)

  /**
   * A focus pill used at a bottleneck counts one grade higher for each
   * sub-realm (three per realm) it was made above the user's level and one
   * lower for each below, capped at high; below low it fails.
   */
  function FocusPillEffect(stage: int, realm: int, pillRealm: int, pillSub: int, grade: PillGrade): (e: FocusEffect)
    ensures !IsBottleneck(stage) <==> e == FocusNotAtBottleneck
    ensures e.FocusGrade? ==> 0 <= e.grade <= 2
    ensures IsBottleneck(stage) && pillRealm == realm && pillSub == SubRealmOf(stage)
      ==> e == FocusGrade(BaseGradeValue(grade))
    ensures IsBottleneck(stage) ==>
      (e == FocusTooWeak <==> BaseGradeValue(grade) + 3 * (pillRealm - realm) + pillSub - SubRealmOf(stage) < 0)
  {
    if !IsBottleneck(stage) then FocusNotAtBottleneck
    else
      var userLinear := realm * 3 + SubRealmOf(stage);
      var pillLinear := pillRealm * 3 + pillSub;
      var resultGrade := BaseGradeValue(grade) + (pillLinear - userLinear);
      if resultGrade < 0 then FocusTooWeak
      else FocusGrade(if resultGrade < 2 then resultGrade else 2)
  }

  /** A stronger pill (higher realm or sub-realm) never gives a lower focus grade. */
  lemma FocusPillMono(stage: int, realm: int, r1: int, s1: int, r2: int, s2: int, grade: PillGrade)
    requires IsBottleneck(stage)
    requires 3 * r1 + s1 <= 3 * r2 + s2
    requires FocusPillEffect(stage, realm, r1, s1, grade).FocusGrade?
    ensures FocusPillEffect(stage, realm, r2, s2, grade).FocusGrade?
    ensures FocusPillEffect(stage, realm, r1, s1, grade).grade <= FocusPillEffect(stage, realm, r2, s2, grade).grade
  {
  }

  /**
   * A working pill made one sub-realm higher is one grade better, capped at
   * high: the grade moves one step per sub-realm of difference.
   */
  lemma FocusPillStep(stage: int, realm: int, pillRealm: int, pillSub: int, grade: PillGrade, k: int)
    requires IsBottleneck(stage)
    requires FocusPillEffect(stage, realm, pillRealm, pillSub, grade) == FocusGrade(k)
    ensures FocusPillEffect(stage, realm, pillRealm, pillSub + 1, grade) == FocusGrade(if k < 2 then k + 1 else 2)
  {
  }

  /**
   * Only the distance between the levels matters: raising the user and the
   * pill by the same number of realms leaves the effect unchanged.
   */
  lemma FocusPillShift(stage: int, realm: int, pillRealm: int, pillSub: int, grade: PillGrade, d: int)
    ensures FocusPillEffect(stage, realm + d, pillRealm + d, pillSub, grade)
         == FocusPillEffect(stage, realm, pillRealm, pillSub, grade)
  {
  }

  datatype FoundationEffect = FoundationNotAtBottleneck | FoundationTooWeak | FoundationVirtual | FoundationReal

  /**
   * A foundation pill used at a bottleneck works only when made for at least
   * the user's level (realm first, then sub-realm); it acts as a real pill
   * when made for a strictly higher level, or for the same level with the
   * real grade, and as a virtual pill otherwise.
   */
  function FoundationPillEffect(stage: int, realm: int, pillRealm: int, pillSub: int, grade: PillGrade): (e: FoundationEffect)
    ensures !IsBottleneck(stage) <==> e == FoundationNotAtBottleneck
    ensures IsBottleneck(stage) && 0 <= pillSub <= 4 ==>
      (e == FoundationTooWeak <==> pillRealm < realm || (pillRealm == realm && pillSub < SubRealmOf(stage)))
    ensures IsBottleneck(stage) && 0 <= pillSub <= 4 ==>
      (e == FoundationReal <==>
        (pillRealm > realm || (pillRealm == realm && pillSub > SubRealmOf(stage))
         || (pillRealm == realm && pillSub == SubRealmOf(stage) && grade == Real)))
  {
    if !IsBottleneck(stage) then FoundationNotAtBottleneck
    else
      var userVal := realm * 10 + SubRealmOf(stage);
      var pillVal := pillRealm * 10 + pillSub;
      if pillVal >= userVal then
        if pillVal > userVal then FoundationReal
        else if grade == Real then FoundationReal
        else FoundationVirtual
      else FoundationTooWeak
  }
}
