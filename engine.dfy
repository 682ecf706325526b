/**
 * The session engine of the dual N-back trainer: a session generates its
 * trial sequence on start, shows one trial after another (after a 2 s
 * pre-roll), takes presses for the two modalities while a trial is shown,
 * resolves each trial when it ends, adjusts the pace in dynamic mode, and
 * saves the result when the sequence is exhausted.
 *
 * Timers are not run: an armed timer is a flag, and the caller fires it
 * with BeginTrials (the pre-roll), Advance (the trial timer) or Continue
 * (the space bar in self-paced mode). Time is an integer number of
 * milliseconds passed to each event; intervals are in hundredths of a
 * second.
 */
module Engine {
  import opened Generation
  import opened Scoring
  import Pacing
  import Cultivation

  /** A late press up to this many milliseconds into a trial may still count for the previous one. */
  const GRACE_PERIOD_MS: int := 200

  datatype Modality = Audio | Visual

  function Other(m: Modality): Modality
  {
    if m == Audio then Visual else Audio
  }

  /** Which modalities have been pressed during one trial. */
  datatype Inputs = Inputs(audio: bool, visual: bool)
  {
    function Get(m: Modality): bool
    {
      if m == Audio then audio else visual
    }

    function Set(m: Modality): (r: Inputs)
      ensures r.Get(m) && r.Get(Other(m)) == Get(Other(m))
    {
      if m == Audio then this.(audio := true) else this.(visual := true)
    }
  }

  const NOTHING_PRESSED: Inputs := Inputs(false, false)

  /** The settings a session is started with. */
  datatype Settings = Settings(
    n: nat,
    isVariable: bool,
    useCenter: bool,
    roundMode: Cultivation.RoundMode,
    customRounds: int,
    weights: seq<nat>,
    pacing: Pacing.PacingMode,
    interval: int)

  /** N is at least 1 and the base interval at least 0.1 s. */
  predicate SettingsOk(s: Settings)
  {
    s.n >= 1 && s.interval >= 10
  }

  const DEFAULT_SETTINGS: Settings :=
    Settings(2, false, true, Cultivation.StandardRounds, 20, [1], Pacing.Standard, Pacing.DEFAULT_INTERVAL)

  /** The lag weights a session generates with: the configured ones when there is one per lag, ten each otherwise. */
  function SessionWeights(s: Settings): (w: seq<nat>)
    ensures |w| == s.n
    ensures |s.weights| == s.n ==> w == s.weights
    ensures |s.weights| != s.n ==> forall k :: 0 <= k < |w| ==> w[k] == 10
  {
    if |s.weights| == s.n then s.weights else seq(s.n, _ => 10)
  }

  /** The generator parameters of a session: its round count, N as the largest lag, and its weights. */
  function SessionParams(s: Settings): (g: Params)
    requires SettingsOk(s)
    ensures ParamsOk(g)
    ensures g.length >= 1 && g.maxN == s.n
  {
    Params(Cultivation.RoundCount(s.n, s.roundMode, s.customRounds) as nat, s.n, s.useCenter, s.isVariable, SessionWeights(s))
  }

  /** Whether trial idx repeats, in modality m, the cue `lag` trials back. */
  function Matches(s: seq<Step>, idx: int, lag: int, m: Modality): (same: bool)
    requires 0 <= lag <= idx < |s|
  {
    if m == Audio then s[idx].letter == s[idx - lag].letter else s[idx].position == s[idx - lag].position
  }

  /** An error is a miss or a false alarm. */
  predicate IsError(o: Outcome)
  {
    o == Miss || o == FalseAlarm
  }

  /** The pacing flags of a trial resolved to the two given outcomes. */
  function FlagsOf(visual: Outcome, audio: Outcome): Pacing.TrialFlags
  {
    Pacing.TrialFlags(IsError(visual) || IsError(audio), visual == Hit || audio == Hit)
  }

  /** What a finished session saves: both modalities' counts and the accuracy over both together. */
  datatype SessionResult = SessionResult(visual: ScoreDetail, audio: ScoreDetail, accuracy: int)

  /**
   * A session in which every recorded press agrees with the ground truth is
   * saved with full accuracy.
   */
  lemma PerfectSession(visualLog: seq<(bool, bool)>, audioLog: seq<(bool, bool)>)
    requires forall k :: 0 <= k < |visualLog| ==> visualLog[k].1 == visualLog[k].0
    requires forall k :: 0 <= k < |audioLog| ==> audioLog[k].1 == audioLog[k].0
    ensures SessionAccuracy(Tally(Outcomes(visualLog)), Tally(Outcomes(audioLog))) == 1000
  {
    var v := Tally(Outcomes(visualLog));
    var a := Tally(Outcomes(audioLog));
    assert v.misses == 0 && v.falseAlarms == 0 by { PerfectPlay(visualLog); }
    assert a.misses == 0 && a.falseAlarms == 0 by { PerfectPlay(audioLog); }
  }

  class Session {
    /** Settings captured when the session was started. */
    var settings: Settings
    var sequence: seq<Step>
    var isPlaying: bool
    /** The trial shown; -1 before the first. */
    var currentIndex: int
    var visual: ScoreDetail
    var audio: ScoreDetail
    /** Presses during the trial shown. */
    var inputs: Inputs
    /** Presses during the trial before, possibly amended by a late press. */
    var prevInputs: Inputs
    /** When the trial shown started, in milliseconds. */
    var trialStart: int
    /** The dynamic interval, in hundredths of a second. */
    var runningInterval: int
    /** The 2 s pre-roll before the first trial is pending. */
    var preRollArmed: bool
    /** The timer that ends the trial timerIndex is pending, due after timerDuration milliseconds. */
    var timerArmed: bool
    var timerIndex: int
    var timerDuration: int
    /** Results saved by finished sessions, oldest first. */
    var saved: seq<SessionResult>

    function Score(m: Modality): ScoreDetail
      reads this
    {
      if m == Audio then audio else visual
    }

    /** The lag trial idx is compared at: its own lag in variable mode, N otherwise. */
    function Lag(idx: int): (lag: nat)
      reads this
      requires 0 <= idx < |sequence|
    {
      if settings.isVariable then sequence[idx].nBack else settings.n
    }

    /** Trial idx is far enough in to be compared with the trial Lag(idx) back. */
    predicate Scored(idx: int)
      reads this
    {
      0 <= idx < |sequence| && idx >= Lag(idx)
    }

    /** The outcome of scored trial idx in modality m, pressed or not. */
    function OutcomeOf(idx: int, m: Modality, pressed: bool): Outcome
      reads this
      requires Scored(idx)
    {
      Classify(Matches(sequence, idx, Lag(idx), m), pressed)
    }

    /** How long a trial is shown in this session, in milliseconds. */
    function TrialDuration(): (ms: int)
      reads this
    {
      10 * (if settings.pacing == Pacing.Dynamic then runningInterval else settings.interval)
    }

    /**
     * A late press can still be counted for scored trial idx, resolved with
     * the given presses: for each modality it was not pressed in, the count
     * it went to (a miss if it matched, a correct rejection if not) is
     * positive.
     */
    ghost predicate CanAmend(idx: int, pressed: Inputs)
      reads this
      requires Scored(idx)
    {
      && (!pressed.visual ==>
            if Matches(sequence, idx, Lag(idx), Visual) then visual.misses > 0 else visual.correctRejections > 0)
      && (!pressed.audio ==>
            if Matches(sequence, idx, Lag(idx), Audio) then audio.misses > 0 else audio.correctRejections > 0)
    }

    /** Everything but the link between the previous trial's presses and the counts. */
    ghost predicate Core()
      reads this
    {
      && SettingsOk(settings)
      && -1 <= currentIndex < |sequence|
      && (isPlaying ==> |sequence| >= 1 && Pacing.InRange(runningInterval, settings.interval))
      && (timerArmed ==> isPlaying && !preRollArmed && settings.pacing != Pacing.SelfPaced
                         && 0 <= currentIndex && timerIndex == currentIndex)
      && (preRollArmed ==> isPlaying)
    }

    /**
     * The session invariant: besides the bounds and the timer bookkeeping,
     * while playing, when the trial before the one shown was scored, a late
     * press for it has a count to move.
     */
    ghost predicate Valid()
      reads this
    {
      && Core()
      && (isPlaying && currentIndex > 0 && Scored(currentIndex - 1) ==> CanAmend(currentIndex - 1, prevInputs))
    }

    /** A press now would amend the previous trial instead of counting for the one shown. */
    predicate InGrace(m: Modality, now: int)
      reads this
    {
      && isPlaying
      && now - trialStart < GRACE_PERIOD_MS
      && currentIndex > 0
      && Scored(currentIndex - 1)
      && !prevInputs.Get(m)
    }

    function Timers(): Lifecycle
      reads this
    {
      Lifecycle(isPlaying, preRollArmed, timerArmed)
    }

    constructor()
      ensures Valid() && !isPlaying && saved == []
      ensures currentIndex == -1 && sequence == []
      ensures visual == ZERO && audio == ZERO
      ensures inputs == NOTHING_PRESSED && prevInputs == NOTHING_PRESSED
      ensures runningInterval == Pacing.DEFAULT_INTERVAL
      ensures !preRollArmed && !timerArmed
    {
      settings := DEFAULT_SETTINGS;
      sequence := [];
      isPlaying := false;
      currentIndex := -1;
      visual := ZERO;
      audio := ZERO;
      inputs := NOTHING_PRESSED;
      prevInputs := NOTHING_PRESSED;
      trialStart := 0;
      runningInterval := Pacing.DEFAULT_INTERVAL;
      preRollArmed := false;
      timerArmed := false;
      timerIndex := 0;
      timerDuration := 0;
      saved := [];
    }

    /**
     * Start a session (ignored while one is playing): generate the sequence
     * from the oracle, rewind to before the first trial, zero the counts,
     * reset the dynamic interval to the base, and arm the pre-roll. The
     * presses of the last trial of an earlier session are kept.
     */
    method Start(s: Settings, rand: Random)
      requires Valid() && SettingsOk(s) && IsUnitStream(rand)
      modifies this
      ensures Valid()
      ensures old(isPlaying) ==> unchanged(this)
      ensures !old(isPlaying) ==>
        && isPlaying && settings == s
        && sequence == Generated(SessionParams(s), rand)
        && |sequence| == Cultivation.RoundCount(s.n, s.roundMode, s.customRounds)
        && WellFormed(sequence, SessionParams(s))
        && currentIndex == -1
        && visual == ZERO && audio == ZERO
        && runningInterval == s.interval
        && inputs == old(inputs) && prevInputs == old(prevInputs) && saved == old(saved)
      ensures Timers() == StartLifecycle(old(Timers()))
    {
      if isPlaying {
        return;
      }
      var g := SessionParams(s);
      var trials := GenerateSequence(g.length, g.maxN, g.useCenter, g.isVariable, g.weights, rand);
      assert trials == Generated(g, rand) && WellFormed(trials, g) by {
        assert Params(g.length, g.maxN, g.useCenter, g.isVariable, g.weights) == g;
      }
      Reset(s, trials);
    }

    /** The start of a session with the given settings and generated trials. */
    method Reset(s: Settings, trials: seq<Step>)
      requires Core() && !isPlaying && SettingsOk(s) && |trials| >= 1
      modifies this
      ensures Valid()
      ensures isPlaying && settings == s && sequence == trials && currentIndex == -1
      ensures visual == ZERO && audio == ZERO && runningInterval == s.interval
      ensures preRollArmed && !timerArmed
      ensures inputs == old(inputs) && prevInputs == old(prevInputs) && saved == old(saved)
    {
      Pacing.BaseInRange(s.interval);
      settings := s;
      sequence := trials;
      currentIndex := -1;
      isPlaying := true;
      runningInterval := s.interval;
      visual := ZERO;
      audio := ZERO;
      preRollArmed := true;
    }

    /**
     * Stop the session: cancel the pending trial timer and the pending
     * pre-roll, and stop playing. Nothing is saved.
     */
    method Stop()
      requires Core()
      modifies this
      ensures Valid()
      ensures !isPlaying && !timerArmed && !preRollArmed
      ensures Timers() == StopCorrected(old(Timers()))
      ensures sequence == old(sequence) && currentIndex == old(currentIndex)
      ensures visual == old(visual) && audio == old(audio) && saved == old(saved)
      ensures inputs == old(inputs) && prevInputs == old(prevInputs)
      ensures runningInterval == old(runningInterval) && settings == old(settings)
    {
      timerArmed := false;
      preRollArmed := false;
      isPlaying := false;
    }

    /** Past the last trial: stop, then save the counts and the accuracy over both modalities. */
    method EndSession()
      requires Core()
      modifies this
      ensures Valid()
      ensures !isPlaying && !timerArmed && !preRollArmed
      ensures saved == old(saved) + [SessionResult(visual, audio, SessionAccuracy(visual, audio))]
      ensures sequence == old(sequence) && currentIndex == old(currentIndex)
      ensures visual == old(visual) && audio == old(audio)
      ensures inputs == old(inputs) && prevInputs == old(prevInputs)
      ensures runningInterval == old(runningInterval) && settings == old(settings)
    {
      Stop();
      saved := saved + [SessionResult(visual, audio, SessionAccuracy(visual, audio))];
    }

    /**
     * Show trial idx: keep the presses of the trial before, clear the
     * presses, record the start time and, unless self-paced, arm the timer
     * that ends the trial.
     */
    method ShowTrial(idx: int, now: int)
      requires Core() && isPlaying && 0 <= idx < |sequence|
      requires preRollArmed ==> settings.pacing == Pacing.SelfPaced
      requires !timerArmed
      requires idx > 0 && Scored(idx - 1) ==> CanAmend(idx - 1, inputs)
      modifies this
      ensures Valid()
      ensures isPlaying && currentIndex == idx && preRollArmed == old(preRollArmed)
      ensures prevInputs == old(inputs) && inputs == NOTHING_PRESSED && trialStart == now
      ensures timerArmed <==> settings.pacing != Pacing.SelfPaced
      ensures timerArmed ==> timerIndex == idx && timerDuration == TrialDuration()
      ensures settings == old(settings) && sequence == old(sequence) && runningInterval == old(runningInterval)
      ensures visual == old(visual) && audio == old(audio) && saved == old(saved)
    {
      currentIndex := idx;
      prevInputs := inputs;
      inputs := NOTHING_PRESSED;
      trialStart := now;
      if settings.pacing != Pacing.SelfPaced {
        ArmTimer();
      }
    }

    /** Arm the timer that ends the trial shown after the session's trial duration. */
    method ArmTimer()
      requires Valid() && isPlaying && 0 <= currentIndex && !preRollArmed && settings.pacing != Pacing.SelfPaced
      modifies this
      ensures Valid()
      ensures timerArmed && timerIndex == currentIndex && timerDuration == TrialDuration()
      ensures settings == old(settings) && sequence == old(sequence) && currentIndex == old(currentIndex)
      ensures isPlaying == old(isPlaying) && inputs == old(inputs) && prevInputs == old(prevInputs)
      ensures runningInterval == old(runningInterval) && saved == old(saved) && trialStart == old(trialStart)
      ensures visual == old(visual) && audio == old(audio) && preRollArmed == old(preRollArmed)
    {
      timerArmed := true;
      timerIndex := currentIndex;
      timerDuration := TrialDuration();
    }

    /** Show trial idx, or, past the last trial, end the session. */
    method NextTrial(idx: int, now: int)
      requires Core() && isPlaying && 0 <= idx <= |sequence|
      requires preRollArmed ==> settings.pacing == Pacing.SelfPaced
      requires !timerArmed
      requires idx > 0 && Scored(idx - 1) ==> CanAmend(idx - 1, inputs)
      modifies this
      ensures Valid()
      ensures settings == old(settings) && sequence == old(sequence) && runningInterval == old(runningInterval)
      ensures visual == old(visual) && audio == old(audio)
      ensures idx == |sequence| ==>
        && !isPlaying && !timerArmed && !preRollArmed && currentIndex == old(currentIndex)
        && saved == old(saved) + [SessionResult(visual, audio, SessionAccuracy(visual, audio))]
      ensures idx < |sequence| ==>
        && isPlaying && currentIndex == idx && preRollArmed == old(preRollArmed)
        && prevInputs == old(inputs) && inputs == NOTHING_PRESSED && trialStart == now
        && (timerArmed <==> settings.pacing != Pacing.SelfPaced)
        && (timerArmed ==> timerIndex == currentIndex && timerDuration == TrialDuration())
        && saved == old(saved)
    {
      if idx >= |sequence| {
        EndSession();
      } else {
        ShowTrial(idx, now);
      }
    }

    /** The pre-roll elapses: the first trial is shown. */
    method BeginTrials(now: int)
      requires Valid()
      modifies this
      ensures Valid()
      ensures settings == old(settings) && sequence == old(sequence) && runningInterval == old(runningInterval)
      ensures visual == old(visual) && audio == old(audio) && saved == old(saved)
      ensures !old(preRollArmed) ==> unchanged(this)
      ensures old(preRollArmed) ==>
        && isPlaying && !preRollArmed && currentIndex == 0
        && prevInputs == old(inputs) && inputs == NOTHING_PRESSED && trialStart == now
        && (timerArmed <==> settings.pacing != Pacing.SelfPaced)
        && (timerArmed ==> timerIndex == 0 && timerDuration == TrialDuration())
        && Timers() == PreRollFires(old(Timers()), settings.pacing == Pacing.SelfPaced)
    {
      if !preRollArmed {
        return;
      }
      preRollArmed := false;
      ShowTrial(0, now);
    }

    /** Resolve the trial shown against the trial Lag back: one outcome recorded per modality. */
    method Resolve() returns (flags: Pacing.TrialFlags)
      requires Core() && isPlaying && Scored(currentIndex)
      modifies this
      ensures settings == old(settings) && sequence == old(sequence) && currentIndex == old(currentIndex)
      ensures isPlaying == old(isPlaying) && inputs == old(inputs) && prevInputs == old(prevInputs)
      ensures runningInterval == old(runningInterval) && saved == old(saved)
      ensures preRollArmed == old(preRollArmed) && timerArmed == old(timerArmed)
      ensures Core() && CanAmend(currentIndex, inputs)
      ensures visual == Record(old(visual), OutcomeOf(currentIndex, Visual, inputs.visual))
      ensures audio == Record(old(audio), OutcomeOf(currentIndex, Audio, inputs.audio))
      ensures flags == FlagsOf(OutcomeOf(currentIndex, Visual, inputs.visual), OutcomeOf(currentIndex, Audio, inputs.audio))
    {
      var audioError, audioHit := ResolveOne(Audio);
      var visualError, visualHit := ResolveOne(Visual);
      flags := Pacing.TrialFlags(audioError || visualError, audioHit || visualHit);
    }

    /**
     * Resolve one modality of the trial shown: the counter its outcome
     * names goes up by one, and the outcome is reported as an error (a miss
     * or a false alarm) or a hit.
     */
    method ResolveOne(m: Modality) returns (isError: bool, isHit: bool)
      requires Core() && isPlaying && Scored(currentIndex)
      modifies this
      ensures settings == old(settings) && sequence == old(sequence) && currentIndex == old(currentIndex)
      ensures isPlaying == old(isPlaying) && inputs == old(inputs) && prevInputs == old(prevInputs)
      ensures runningInterval == old(runningInterval) && saved == old(saved)
      ensures preRollArmed == old(preRollArmed) && timerArmed == old(timerArmed) && timerIndex == old(timerIndex)
      ensures Core()
      ensures Score(m) == Record(old(Score(m)), OutcomeOf(currentIndex, m, inputs.Get(m)))
      ensures Score(Other(m)) == old(Score(Other(m)))
      ensures isError <==> IsError(OutcomeOf(currentIndex, m, inputs.Get(m)))
      ensures isHit <==> OutcomeOf(currentIndex, m, inputs.Get(m)) == Hit
    {
      var isMatch := Matches(sequence, currentIndex, Lag(currentIndex), m);
      var pressed := inputs.Get(m);
      var d := Score(m);
      isError, isHit := false, false;
      if isMatch {
        if pressed {
          d := d.(hits := d.hits + 1);
          isHit := true;
        } else {
          d := d.(misses := d.misses + 1);
          isError := true;
        }
      } else {
        if pressed {
          d := d.(falseAlarms := d.falseAlarms + 1);
          isError := true;
        } else {
          d := d.(correctRejections := d.correctRejections + 1);
        }
      }
      if m == Audio {
        audio := d;
      } else {
        visual := d;
      }
    }

    /**
     * The trial shown ends: it is resolved when scored, the dynamic interval
     * follows its outcome, and the next trial is shown (or the session ends).
     */
    method FinishTrialAndNext(now: int)
      requires Valid() && isPlaying && 0 <= currentIndex
      requires preRollArmed ==> settings.pacing == Pacing.SelfPaced
      requires !timerArmed
      modifies this
      ensures Valid()
      ensures settings == old(settings) && sequence == old(sequence)
      ensures old(Scored(currentIndex)) ==>
        && visual == Record(old(visual), old(OutcomeOf(currentIndex, Visual, inputs.visual)))
        && audio == Record(old(audio), old(OutcomeOf(currentIndex, Audio, inputs.audio)))
      ensures !old(Scored(currentIndex)) ==> visual == old(visual) && audio == old(audio)
      ensures settings.pacing == Pacing.Dynamic && old(Scored(currentIndex)) ==>
        var flags := FlagsOf(old(OutcomeOf(currentIndex, Visual, inputs.visual)), old(OutcomeOf(currentIndex, Audio, inputs.audio)));
        runningInterval == Pacing.NextInterval(old(runningInterval), settings.interval, flags.hasError, flags.hasHit)
      ensures settings.pacing != Pacing.Dynamic || !old(Scored(currentIndex)) ==> runningInterval == old(runningInterval)
      ensures old(currentIndex) + 1 < |sequence| ==>
        && isPlaying && currentIndex == old(currentIndex) + 1 && preRollArmed == old(preRollArmed)
        && prevInputs == old(inputs) && inputs == NOTHING_PRESSED && trialStart == now
        && (timerArmed <==> settings.pacing != Pacing.SelfPaced)
        && (timerArmed ==> timerIndex == currentIndex && timerDuration == TrialDuration())
        && saved == old(saved)
      ensures old(currentIndex) + 1 == |sequence| ==>
        && !isPlaying && !timerArmed && !preRollArmed
        && saved == old(saved) + [SessionResult(visual, audio, SessionAccuracy(visual, audio))]
    {
      var idx := currentIndex;
      if Scored(idx) {
        var flags := Resolve();
        if settings.pacing == Pacing.Dynamic {
          Pacing.NextInRange(runningInterval, settings.interval, flags.hasError, flags.hasHit);
          runningInterval := Pacing.NextInterval(runningInterval, settings.interval, flags.hasError, flags.hasHit);
        }
      }
      NextTrial(idx + 1, now);
    }

    /** The trial timer fires: the trial it was armed for ends and, unless it was the last, the next one is timed. */
    method Advance(now: int)
      requires Valid()
      modifies this
      ensures Valid()
      ensures settings == old(settings) && sequence == old(sequence)
      ensures !old(timerArmed) ==> unchanged(this)
      ensures old(timerArmed) && old(Scored(currentIndex)) ==>
        && visual == Record(old(visual), old(OutcomeOf(currentIndex, Visual, inputs.visual)))
        && audio == Record(old(audio), old(OutcomeOf(currentIndex, Audio, inputs.audio)))
      ensures !old(Scored(currentIndex)) ==> visual == old(visual) && audio == old(audio)
      ensures old(timerArmed) && settings.pacing == Pacing.Dynamic && old(Scored(currentIndex)) ==>
        var flags := FlagsOf(old(OutcomeOf(currentIndex, Visual, inputs.visual)), old(OutcomeOf(currentIndex, Audio, inputs.audio)));
        runningInterval == Pacing.NextInterval(old(runningInterval), settings.interval, flags.hasError, flags.hasHit)
      ensures settings.pacing != Pacing.Dynamic || !old(Scored(currentIndex)) ==> runningInterval == old(runningInterval)
      ensures old(timerArmed) && old(currentIndex) + 1 < |sequence| ==>
        && isPlaying && currentIndex == old(currentIndex) + 1 && preRollArmed == old(preRollArmed)
        && prevInputs == old(inputs) && inputs == NOTHING_PRESSED && trialStart == now
        && timerArmed && timerIndex == currentIndex && timerDuration == TrialDuration()
        && saved == old(saved)
      ensures old(timerArmed) && old(currentIndex) + 1 == |sequence| ==>
        && !isPlaying && !timerArmed && !preRollArmed
        && saved == old(saved) + [SessionResult(visual, audio, SessionAccuracy(visual, audio))]
    {
      if !timerArmed {
        return;
      }
      timerArmed := false;
      FinishTrialAndNext(now);
    }

    /**
     * The space bar in self-paced mode ends the trial shown. Before the first
     * trial (index -1) a fixed-N session shows trial 0 at once; a
     * variable-N session looks up the lag of trial -1 and fails, changing
     * nothing.
     */
    method Continue(now: int)
      requires Valid()
      modifies this
      ensures Valid()
      ensures settings == old(settings) && sequence == old(sequence)
      ensures !isPlaying || settings.pacing != Pacing.SelfPaced ==> runningInterval == old(runningInterval)
      ensures !old(isPlaying) || settings.pacing != Pacing.SelfPaced ==> unchanged(this)
      ensures old(isPlaying) && settings.pacing == Pacing.SelfPaced && old(currentIndex) == -1 ==>
        (if settings.isVariable then unchanged(this)
         else
           && isPlaying && currentIndex == 0 && !timerArmed && preRollArmed == old(preRollArmed)
           && prevInputs == old(inputs) && inputs == NOTHING_PRESSED && trialStart == now
           && visual == old(visual) && audio == old(audio) && saved == old(saved)
           && runningInterval == old(runningInterval))
      ensures old(isPlaying) && settings.pacing == Pacing.SelfPaced && old(currentIndex) >= 0 ==>
        && runningInterval == old(runningInterval)
        && (old(Scored(currentIndex)) ==>
              && visual == Record(old(visual), old(OutcomeOf(currentIndex, Visual, inputs.visual)))
              && audio == Record(old(audio), old(OutcomeOf(currentIndex, Audio, inputs.audio))))
        && (!old(Scored(currentIndex)) ==> visual == old(visual) && audio == old(audio))
        && (old(currentIndex) + 1 < |sequence| ==>
              && isPlaying && currentIndex == old(currentIndex) + 1 && !timerArmed
              && preRollArmed == old(preRollArmed)
              && prevInputs == old(inputs) && inputs == NOTHING_PRESSED && trialStart == now
              && saved == old(saved))
        && (old(currentIndex) + 1 == |sequence| ==>
              && !isPlaying && !timerArmed && !preRollArmed
              && saved == old(saved) + [SessionResult(visual, audio, SessionAccuracy(visual, audio))])
    {
      if settings.pacing != Pacing.SelfPaced || !isPlaying {
        return;
      }
      if currentIndex == -1 {
        if settings.isVariable {
          return;
        }
        ShowTrial(0, now);
        return;
      }
      FinishTrialAndNext(now);
    }

    /**
     * A late press for the previous trial: its miss becomes a hit when it
     * matched, its correct rejection a false alarm when it did not, and the
     * press is kept with that trial's presses.
     */
    method Amend(m: Modality)
      requires Valid() && isPlaying && currentIndex > 0 && Scored(currentIndex - 1) && !prevInputs.Get(m)
      modifies this
      ensures Valid()
      ensures prevInputs == old(prevInputs).Set(m)
      ensures var wasMatch := old(Matches(sequence, currentIndex - 1, Lag(currentIndex - 1), m));
        && (wasMatch ==> old(Score(m)).misses > 0)
        && (!wasMatch ==> old(Score(m)).correctRejections > 0)
        && Score(m) == Regrade(old(Score(m)), wasMatch)
      ensures Score(Other(m)) == old(Score(Other(m)))
      ensures settings == old(settings) && sequence == old(sequence) && currentIndex == old(currentIndex)
      ensures isPlaying == old(isPlaying) && inputs == old(inputs) && trialStart == old(trialStart)
      ensures runningInterval == old(runningInterval) && saved == old(saved)
      ensures preRollArmed == old(preRollArmed) && timerArmed == old(timerArmed) && timerIndex == old(timerIndex)
      ensures timerDuration == old(timerDuration)
    {
      var isMatch := Matches(sequence, currentIndex - 1, Lag(currentIndex - 1), m);
      if m == Audio {
        audio := Regrade(audio, isMatch);
      } else {
        visual := Regrade(visual, isMatch);
      }
      prevInputs := prevInputs.Set(m);
    }

    /**
     * A press for modality m at time now. Ignored when not playing. Within
     * the grace period of a trial, a press the previous scored trial did not
     * get is counted for it instead (see Amend). Otherwise the press is
     * noted for the trial shown, once, when that trial is scored; the counts
     * do not change.
     */
    method Press(m: Modality, now: int)
      requires Valid()
      modifies this
      ensures Valid()
      ensures !old(isPlaying) ==> unchanged(this)
      ensures Score(m).hits + Score(m).misses == old(Score(m).hits + Score(m).misses)
      ensures Score(m).falseAlarms + Score(m).correctRejections == old(Score(m).falseAlarms + Score(m).correctRejections)
      ensures Score(Other(m)) == old(Score(Other(m)))
      ensures currentIndex == old(currentIndex) && isPlaying == old(isPlaying) && sequence == old(sequence)
      ensures settings == old(settings) && runningInterval == old(runningInterval) && trialStart == old(trialStart)
      ensures timerArmed == old(timerArmed) && timerIndex == old(timerIndex) && timerDuration == old(timerDuration)
      ensures preRollArmed == old(preRollArmed) && saved == old(saved)
      ensures old(InGrace(m, now)) ==>
        && inputs == old(inputs) && prevInputs == old(prevInputs).Set(m)
        && (old(Matches(sequence, currentIndex - 1, Lag(currentIndex - 1), m)) ==>
              Score(m).hits == old(Score(m).hits) + 1 && Score(m).falseAlarms == old(Score(m).falseAlarms))
        && (!old(Matches(sequence, currentIndex - 1, Lag(currentIndex - 1), m)) ==>
              Score(m).falseAlarms == old(Score(m).falseAlarms) + 1 && Score(m).hits == old(Score(m).hits))
      ensures old(isPlaying) && !old(InGrace(m, now)) ==>
        && visual == old(visual) && audio == old(audio) && prevInputs == old(prevInputs)
        && inputs == (if old(Scored(currentIndex)) then old(inputs).Set(m) else old(inputs))
    {
      if !isPlaying {
        return;
      }
      if now - trialStart < GRACE_PERIOD_MS && currentIndex > 0 {
        var prevIdx := currentIndex - 1;
        if prevIdx >= Lag(prevIdx) && !prevInputs.Get(m) {
          Amend(m);
          return;
        }
      }
      if !Scored(currentIndex) {
        return;
      }
      if inputs.Get(m) {
        return;
      }
      inputs := inputs.Set(m);
    }
  }

  // -----------------------------------------------------------------------
  // Timer lifecycle

  /** Whether a session is playing and which of its two timers are pending. */
  datatype Lifecycle = Lifecycle(playing: bool, preRoll: bool, trialTimer: bool)

  /** Starting a session that is not playing arms the pre-roll. */
  function StartLifecycle(l: Lifecycle): (r: Lifecycle)
    ensures !l.playing ==> r.playing && r.preRoll && r.trialTimer == l.trialTimer
    ensures l.playing ==> r == l
  {
    if l.playing then l else Lifecycle(true, true, l.trialTimer)
  }

  /** The pre-roll elapsing shows the first trial, whose timer is armed unless self-paced. */
  function PreRollFires(l: Lifecycle, selfPaced: bool): (r: Lifecycle)
    ensures !l.preRoll ==> r == l
    ensures l.preRoll ==> !r.preRoll && r.playing == l.playing && (r.trialTimer <==> l.trialTimer || !selfPaced)
  {
    if !l.preRoll then l else l.(preRoll := false, trialTimer := l.trialTimer || !selfPaced)
  }

  /** Stopping as the source does: the trial timer is cleared and playing ends; the pre-roll is left pending. */
  function StopAsWritten(l: Lifecycle): (r: Lifecycle)
    ensures !r.playing && !r.trialTimer && r.preRoll == l.preRoll
  {
    l.(playing := false, trialTimer := false)
  }

  /** Stopping that also cancels the pre-roll. */
  function StopCorrected(l: Lifecycle): (r: Lifecycle)
    ensures !r.playing && !r.trialTimer && !r.preRoll
  {
    Lifecycle(false, false, false)
  }

  /**
   * Stopping within the 2 s pre-roll, as written: the pre-roll still fires,
   * and a timed session then runs its trial timer while not playing.
   */
  lemma StopLeaksPreRoll()
    ensures var idle := Lifecycle(false, false, false);
      var l := PreRollFires(StopAsWritten(StartLifecycle(idle)), false);
      !l.playing && l.trialTimer
  {
  }

  /** After the corrected stop nothing is pending, so the pre-roll cannot show a trial. */
  lemma StopCorrectedQuiet(l: Lifecycle, selfPaced: bool)
    ensures PreRollFires(StopCorrected(l), selfPaced) == StopCorrected(l)
    ensures !PreRollFires(StopCorrected(l), selfPaced).trialTimer
  {
  }
}
