# Dual N-back trainer: trial engine

This project models and verifies the session engine of a browser dual N-back
trainer, a single-file React application (`index.tsx`). On each trial the
player sees one of nine grid cells and hears one of eight letters. For each
modality they press a key when the cue repeats the cue N trials back. The
model covers:

- **Trial generation** (`generation.dfy`). `generateSequence` builds the
  sequence. In variable mode it picks each later trial's lag from weighted
  cumulative thresholds (`getProbabilityThresholds`, `pickNFromWeights`).
  Each cue then repeats its reference with probability 0.25. When it does
  not, the cue is drawn from the other cues, and the centre cell is excluded
  in variable mode or when the centre is switched off. `Math.random` is an
  injected stream `rand: nat -> real` of values in [0, 1). The stream is
  consumed in the code's order of calls, so the generator is a
  deterministic function `Generated` of its parameters and the stream.
- **Scoring** (`scoring.dfy`). Each resolved trial is one outcome per
  modality: hit, miss, false alarm or correct rejection. It is recorded in
  four counters. A late press amends the previous trial. `calculateAccuracy`
  is computed in integer tenths of a percent, with exact round-half-up.
- **Dynamic pacing** (`pacing.dfy`). The running interval grows after an
  error and shrinks after a clean hit, clamped to a band around the base
  interval. Intervals are integers in hundredths of a second.
- **Cultivation rules** used by a finished session (`cultivation.dfy`):
  - the number of trials per round mode;
  - breakthrough targets;
  - how a focus pill or a foundation pill acts at a bottleneck stage.
- **The session** (`engine.dfy`). The class `Engine.Session` holds the
  state the component keeps in React state and refs: the sequence, the
  index shown, the presses of this trial and the previous one, the
  counters, the running interval, the pending timers, and the saved
  results. Its methods model:
  - `startGame` (`Start`), `stopGame` (`Stop`) and `nextTrial`;
  - `finishTrialAndNext`;
  - the trial timer firing (`Advance`);
  - the 2 s pre-roll (`BeginTrials`);
  - the space bar in self-paced mode (`Continue`);
  - `handleInput` with its 200 ms grace period (`Press`, `Amend`).

  Timers are not run. A pending timer is a flag, and the caller fires it.
  The time of each event is a parameter in milliseconds.

Facts about the code that the model follows:

- When the lag weights sum to 0, every threshold is 0. `pickNFromWeights`
  then returns the largest lag, N (`Generation.PickZeroSum`).
- `stopGame` saves nothing. Only running past the last trial saves a result.
- After a hit-only trial the interval is only floored, at
  max(0.1 s, interval - 0.5 s). There is no upper clamp, and none is needed:
  the interval never exceeds its ceiling (`Pacing.DriftInRange`).
- `startGame` does not clear the press flags. The first trial of a session
  copies the last trial's presses of the previous session into the
  "previous trial" slot. That slot is never used, because trial 0 is never
  scored.
- In self-paced mode the space bar before the first trial (index -1) shows
  trial 0 at once in a fixed-N session. In a variable-N session it looks up
  the lag of trial -1, which throws and changes nothing (`Continue`).

## Model

| member | source | states |
|---|---|---|
| Generation.Remove | index.tsx:914-917 | The filter keeps exactly the elements different from the removed one; on a list without repeats it drops at most one element |
| Generation.RemoveKeepsOrder | index.tsx:914-917 | The filter keeps the order: on a list without repeats, removing an element that occurs cuts out exactly its position and closes the gap. The position is what decides the cell the scaled draw picks |
| Generation.ScaledIndex | index.tsx:901 | `Math.floor(r * len)` for r in [0, 1) is a valid index below len |
| Generation.Thresholds | index.tsx:870-878 | There is one cumulative threshold per weight |
| Generation.ThresholdBounds | index.tsx:870-878 | With a positive total, every threshold is a share in [0, 1] and the last one is exactly 1 |
| Generation.ThresholdMono | index.tsx:870-878 | With a positive total, the thresholds never decrease |
| Generation.ProbabilityThresholds | index.tsx:870-878 | The running-accumulator loop yields exactly the cumulative shares `Thresholds` |
| Generation.PickFrom | index.tsx:880-886 | The scan from index i returns the first k whose threshold exceeds r, plus 1, or the length when there is none |
| Generation.PickN | index.tsx:880-886 | The loop returns a lag in 1..L (0 only for no thresholds). Every threshold before the chosen one is at most r, and the chosen one exceeds r unless it is the last |
| Generation.PickZeroSum | index.tsx:871-872 | With weights summing to 0, the pick is always the largest lag |
| Generation.PickHasWeight | index.tsx:870-886 | With a positive total and r in [0, 1), the picked lag never has weight 0 |
| Generation.LagDraw | index.tsx:894-898 | The lag is maxN, except in variable mode from trial maxN on, where it is one pick in 1..maxN consuming one draw |
| Generation.FirstPosition | index.tsx:900-905 | A first-trial cell is in 0..8 and is never the centre when the centre is excluded. That case discards one draw |
| Generation.FirstLetter | index.tsx:907 | A first-trial letter is one of the eight letters |
| Generation.NextPosition | index.tsx:911-920 | A later cell equals the reference cell if and only if its roll is below 0.25. Otherwise it is a valid cell, and not the centre when excluded |
| Generation.NextLetter | index.tsx:923-928 | A later letter equals the reference letter if and only if its roll is below 0.25. Otherwise it is one of the letters |
| Generation.FirstTrial | index.tsx:900-907 | A first trial has lag maxN, a valid cell and letter, and no centre when excluded |
| Generation.LaterTrial | index.tsx:908-930 | A later trial repeats each cue of its reference exactly when that cue's roll is below the match rate |
| Generation.Build | index.tsx:894-931 | The first i trials drawn number exactly i |
| Generation.TrialOk | index.tsx:894-931 | A trial drawn after a well-formed prefix satisfies every per-trial constraint |
| Generation.BuildWellFormed | index.tsx:888-933 | Every prefix built is well-formed |
| Generation.BuildPrefix | index.tsx:888-933 | Trials already drawn are not changed by drawing more |
| Generation.GeneratedWellFormed | index.tsx:888-933 | A generated sequence has the requested length and is well-formed. Every later trial's reference lies inside the sequence |
| Generation.GeneratedRepeats | index.tsx:908-930 | From trial maxN on, trial i repeats the cell (letter) of trial i - nBack exactly when its cell (letter) roll is below 0.25 |
| Generation.DrawTrial | index.tsx:894-930 | One loop iteration draws the same trial and consumes the same draws as the specification `TrialAt` |
| Generation.GenerateSequence | index.tsx:888-933 | The loop returns `Generated` for its parameters and stream: `length` trials, each well-formed |
| Scoring.Classify | index.tsx:2167-2181 | The outcome is a hit or a miss if and only if the cue matched, and a hit or a false alarm if and only if the player pressed |
| Scoring.Record | index.tsx:2167-2181 | Recording an outcome adds one to its counter and leaves the other three unchanged |
| Scoring.Tally | index.tsx:2149-2182 | The counters of a list of resolved outcomes sum to its length |
| Scoring.TallyCounts | index.tsx:2149-2182 | Each counter equals the number of occurrences of its outcome |
| Scoring.TallyAppend | index.tsx:2149-2182 | Resolving one more trial records its outcome on the previous counts |
| Scoring.Regrade | index.tsx:2247-2274 | The late-press correction turns one miss into a hit (matched trial) or one correct rejection into a false alarm. Targets and non-targets keep their totals |
| Scoring.RegradeIsPressedResolution | index.tsx:2247-2274 | The correction is always defined on counts where the last trial was resolved unpressed. It gives the counts of resolving that trial as pressed |
| Scoring.PressLast | index.tsx:2247-2274 | Marking the last resolved trial as pressed changes nothing else |
| Scoring.Outcomes | index.tsx:2157-2182 | Each (matched, pressed) pair resolves to its classified outcome, in order |
| Scoring.RegradeLast | index.tsx:2230-2279 | On a log whose last trial went unpressed, the correction equals the tally of the log with that trial pressed |
| Scoring.PerfectPlay | index.tsx:2167-2181 | When every press agrees with the ground truth, there are no misses and no false alarms |
| Scoring.RoundsHalfUpUnique | index.tsx:941 | Rounding to one decimal has at most one result (`Scoring.RoundedShare` supplies one) |
| Scoring.RoundedShareBounds | index.tsx:940-941 | The rounded share 1000·d/t is at most 1000 when d ≤ t, exactly 1000 when d = t, at most 0 when d ≤ 0 and at least 0 when d ≥ 0 |
| Scoring.RoundedShare | index.tsx:941 | The value is 1000·d/t rounded half up |
| Scoring.Accuracy | index.tsx:935-942 | Accuracy is in 0..100.0 %. It is 100 % with no targets and no false alarms, and 0 % with no targets but false alarms. Otherwise it is (1 - errors/targets) rounded to 0.1 %, and 0 % when errors reach the target count |
| Scoring.AccuracyFalseAlarmMono | index.tsx:935-942 | One more false alarm never raises accuracy |
| Scoring.AccuracyHitMono | index.tsx:935-942 | Turning a miss into a hit never lowers accuracy |
| Scoring.SessionAccuracy | index.tsx:1594-1599 | The saved accuracy pools both modalities. It is in range, and 100 % when neither modality has an error |
| Pacing.NextInterval | index.tsx:2184-2205 | After an error the interval is raised by 0.1 s, clamped to [interval, interval + 1 s]. After a clean hit it is lowered by 0.05 s, floored at max(0.1 s, interval - 0.5 s). Otherwise it is unchanged |
| Pacing.BaseInRange | index.tsx:1562-1564 | The reset value, the base interval, lies in the pacing band |
| Pacing.NextInRange | index.tsx:2184-2205 | One update keeps the running interval in its band |
| Pacing.DriftInRange | index.tsx:2184-2205 | Any run of trials keeps the running interval in its band |
| Pacing.HitRun | index.tsx:2195-2200 | k clean hits in a row lower the interval by k·0.05 s, down to the floor |
| Cultivation.RoundCount | index.tsx:984-988 | Custom mode gives the custom count, or at least 1. The standard and linear modes give at least N + 20 trials |
| Cultivation.StandardVersusLinear | index.tsx:984-988 | Standard sessions are shorter than linear ones for N = 1..3, equal at N = 4, and longer above |
| Cultivation.BreakthroughTarget | index.tsx:1013-1019 | The target is nonzero exactly at the bottlenecks 1, 3 and 5. The middle peak needs twice the early one, and the late peak twice the middle |
| Cultivation.BreakthroughNextRealm | index.tsx:1013-1019 | Each realm's target is ten times the previous realm's |
| Cultivation.BreakthroughMono | index.tsx:1013-1019 | Targets grow strictly with the realm |
| Cultivation.SubRealmOf | index.tsx:1674 | A bottleneck stage 2s+1 belongs to sub-realm s in 0..2 |
| Cultivation.BaseGradeValue | index.tsx:1682-1685 | Low is 0, mid 1, high 2, and any other grade 0 |
| Cultivation.FocusPillEffect | index.tsx:1669-1709 | Off a bottleneck the pill has no effect. At one, the grade moves one step per sub-realm of difference, is capped at high, and the pill fails exactly when the grade would drop below low. A same-level pill keeps its grade |
| Cultivation.FocusPillMono | index.tsx:1669-1709 | A pill made for a higher level never gives a lower grade |
| Cultivation.FocusPillShift | index.tsx:1674-1696 | Only the distance between the levels matters: raising the user and the pill by the same number of realms leaves the effect unchanged |
| Cultivation.FocusPillStep | index.tsx:1674-1696 | A working pill made one sub-realm higher is one grade better, capped at high |
| Cultivation.FoundationPillEffect | index.tsx:1712-1750 | At a bottleneck the pill is too weak exactly when made for a lower (realm, sub-realm) level. It acts as real exactly when made for a higher level, or for the same level with the real grade. Otherwise it acts as virtual |
| Engine.SessionWeights | index.tsx:1553 | The session uses the configured weights when there is one per lag, and otherwise weight 10 for each of the N lags |
| Engine.SessionParams | index.tsx:1550-1555 | The generator gets at least one trial, N as the largest lag, and acceptable weights |
| Engine.PerfectSession | index.tsx:1594-1599 | For two resolution logs (one per modality) in which every press agrees with the ground truth, the pooled accuracy of their tallies is 100.0 % |
| Engine.Session.constructor | index.tsx:1370-1379 | A fresh session is idle, with zero counts, no presses, the default interval and no pending timer |
| Engine.Session.Start | index.tsx:1531-1572 | Ignored while playing. Otherwise: the sequence is `Generated` for the session's parameters, with exactly `getRoundCount` well-formed trials; index -1; zero counts; the base interval; the pre-roll pending; the presses kept |
| Engine.Session.Reset | index.tsx:1556-1572 | The state after the start of a session with a given sequence |
| Engine.Session.Stop | index.tsx:1575-1580 | Playing stops and no timer is left pending, with the pre-roll cancelled too (the corrected stop). Nothing is saved, and counts and sequence are unchanged |
| Engine.Session.EndSession | index.tsx:2104-2107 | Past the last trial the session stops. It appends one result holding both counts and their pooled accuracy |
| Engine.Session.ShowTrial | index.tsx:2110-2146 | Showing trial idx makes it current, moves its presses to the previous slot, clears the presses and records the start. Unless self-paced, it arms the trial timer for the session's duration |
| Engine.Session.ArmTimer | index.tsx:2133-2146 | The trial timer is armed for the current trial, for the base interval, or for the running interval in dynamic mode |
| Engine.Session.NextTrial | index.tsx:2103-2147 | Past the last trial the session ends and saves. Otherwise trial idx is shown |
| Engine.Session.BeginTrials | index.tsx:1571-1572 | When the pre-roll fires, trial 0 is shown with its presses cleared and, unless self-paced, its trial timer armed. Settings, sequence, interval, counts and saved results are unchanged. Without a pending pre-roll nothing changes |
| Engine.Session.Resolve | index.tsx:2149-2182 | The current trial records one classified outcome per modality. The flags set in the branches equal `FlagsOf` of the two outcomes: an error if and only if some modality missed or false-alarmed, a hit if and only if some modality hit |
| Engine.Session.ResolveOne | index.tsx:2167-2181 | The branch-wise update of one modality raises exactly the counter of its classified outcome. It reports an error exactly on a miss or false alarm, and a hit exactly on a hit |
| Engine.Session.FinishTrialAndNext | index.tsx:2149-2208 | A scored trial records its outcomes. An unscored one changes no count. In dynamic mode the interval follows `NextInterval` on the trial's flags. The next trial is shown with a pending pre-roll left pending, or the session ends and saves |
| Engine.Session.Advance | index.tsx:2143-2145 | The trial timer ends the trial it was armed for, with everything `FinishTrialAndNext` states: recorded outcomes, the dynamic interval, the next trial shown and its timer re-armed, or the saved result. Settings and sequence are unchanged. Without a pending timer nothing changes |
| Engine.Session.Continue | index.tsx:2312-2317 | In self-paced mode while playing, the space bar ends the trial shown: its outcomes are recorded, and the next trial is shown with no timer and a pending pre-roll left pending, or the session ends and saves. A pre-roll still pending after trials were passed with Space later rewinds the session to trial 0 (`BeginTrials`). From index -1 it shows trial 0 in fixed-N mode and does nothing in variable-N mode. Otherwise it does nothing. Settings, sequence and interval are unchanged |
| Engine.Session.Amend | index.tsx:2230-2279 | A late press moves the previous trial's miss to a hit, or its correct rejection to a false alarm. The count moved is positive, and the press is kept with that trial |
| Engine.Session.Press | index.tsx:2223-2305 | Ignored when not playing. Within 200 ms of a trial's start, an unpressed modality of the previous scored trial is amended (hit +1 on a match, false alarm +1 otherwise). Otherwise the press is noted once for a scored trial, with no count changed. Target and non-target totals never change. Settings, sequence, interval, trial start and timers are unchanged |
| Engine.StartLifecycle | index.tsx:1531-1572 | Starting an idle session makes it play with the pre-roll pending |
| Engine.PreRollFires | index.tsx:2133-2146 | The pre-roll clears itself and arms the trial timer unless self-paced |
| Engine.StopAsWritten | index.tsx:1575-1580 | The code's stop clears the trial timer and the playing flag, and leaves the pre-roll as it was |
| Engine.StopCorrected | index.tsx:1575-1580 | The corrected stop leaves nothing playing and nothing pending |
| Engine.StopLeaksPreRoll | index.tsx:1571-1580 | Start, then the code's stop, then the pre-roll firing: the session is not playing but its trial timer is armed |
| Engine.StopCorrectedQuiet | index.tsx:1575-1580 | After the corrected stop, the pre-roll firing changes nothing and arms no timer |

## Left out

- Audio playback, the audio-context unlock in `startGame`, the display-flash
  timer, and all rendering state (active cell, number display, press
  highlights, feedback colours, summary): presentation only.
- `saveResults` beyond the pooled counts and accuracy: XP, cultivation
  progress, pill drops, history and persistence to local storage.
  `Engine.Session.EndSession` saves only the counts and the accuracy.
- `groupedInventory` (inventory grouping and sorting for display): it does
  not affect a session.
- Floating point. Intervals are integer hundredths of a second, and accuracy
  is integer tenths of a percent with exact half-up rounding.
- Scoring.Accuracy: binary-float effects of `toFixed(1)` at exact halves
  are not modelled.
- Pacing.NextInterval: `toFixed(2)` on float sums is modelled as exact
  arithmetic in hundredths. An interval that is not a multiple of 0.01 s is
  not modelled.
- Generation.Thresholds: the cumulative shares are exact rationals, so the
  last one is exactly 1. The code adds IEEE doubles, and its last threshold
  can fall just short of 1. For example, weights 1,1,1,1,1,1,1,0 give
  0.9999999999999998 in double arithmetic.
- Generation.PickHasWeight: holds for the exact shares only. In the code a
  draw at or above a last threshold that falls short of 1 drops through the
  loop to the last lag, even when that lag has weight 0.
- Engine.PerfectSession: stated over two resolution logs, not over a
  `Session`. The class's counters are not tied to a log of the trials it
  resolved; each step instead states its effect on the counters (`Resolve`
  by `Scoring.Record`, `Amend` by `Scoring.Regrade`, which
  `Scoring.RegradeLast` relates to the log). So the class does not prove
  that a perfectly played session is saved with 100.0 %.
- Cultivation.RoundCount: a fractional custom count is not modelled (counts
  are integers).
- Engine.Session.Stop: models the corrected stop, which also cancels the
  pending pre-roll (see Findings). The code's stop is modelled on
  `Engine.Lifecycle` by `Engine.StopAsWritten`. The background run that the
  leaked pre-roll goes on to drive is not modelled.
- Engine.Session.EndSession: calls the corrected stop, so it also cancels a
  pre-roll still pending at the natural end. This happens in a self-paced
  session whose trials are all passed with Space within the 2 s pre-roll.
  The code's natural end (index.tsx:2104-2107) leaves that pre-roll
  pending, and it later shows trial 0 while the session is not playing.
- Engine.Session.Start: only one pending pre-roll is modelled. Neither a
  start, stop, start sequence within 2 s (two pre-rolls) nor a trial timer
  from an earlier session firing into a later one is modelled.
- Settings are captured when a session starts. Changing them during a
  session is not modelled.
- `Date.now()` is the `now` parameter of each event, and `Math.random` is
  the injected stream `rand`.

## Findings

| source | as written | input that shows it | evidently intended | confidence | as-written member | corrected member |
|---|---|---|---|---|---|---|
| index.tsx:1571-1580 | `startGame` schedules the first trial with a 2 s timeout that is never stored. `stopGame` clears only the trial timer, so the pending pre-roll survives a stop | Start a timed session and stop it within 2 s. Trial 0 is then shown and its trial timer armed while the session is not playing: the trials run on, presses are ignored, and a result is saved at the end | Stopping cancels the pre-roll as well, so nothing runs after a stop | not executed | Engine.StopLeaksPreRoll | Engine.Session.Stop |
