# Metronome, tuner and dynamics toolkit — a Dafny model

This project models the measurement and state layer of a practice app that
is written in TypeScript and React. The layer covers:

- a look-ahead metronome scheduler with a (bar, beat) cursor;
- two tap-tempo estimators;
- an autocorrelation pitch detector and its note naming;
- a level meter with exponential smoothing;
- a dynamics meter with an attack/decay smoother, a two-passage
  auto-calibration, robust statistics and nearest-threshold classification;
- a sound-level display with bands and a decaying peak marker;
- the tuner's needle, status flags and reference-pitch buttons;
- the app's configuration handlers;
- the local music-term dictionary with its lookup and its autocomplete.

Each source file is one module (`js_math.dfy`, `wrappers.dfy` and
`signal.dfy` hold what several share). The model keeps the source's form:

- React state that handlers update becomes a `class` whose methods carry
  `modifies` clauses and state the whole new state: `Metronome.Metronome`,
  `App.App`, `DynamicsMeter.Meter`, `Volume.Meter`, `PitchDetector.Tracker`,
  `DecibelMeter.PeakHold`, `Tuner.Reference`, `TapTempoHook.Hook` and
  `TapTempoButton.Button`.
- Every loop of the source becomes a `method` with a `while` loop proved
  against a specification function. These include:
  - the scheduler's look-ahead loop;
  - the sum of squares;
  - the trim scans and the double loop that fills the correlation table;
  - the descent and argmax scans;
  - the interval loop;
  - the nearest-key scan;
  - the threshold fill;
  - the two `forEach` passes of the suggestions.
- Pure expressions become functions, and their properties become lemmas.

Conventions:

- Host inputs are explicit parameters: the audio clock is `now`, and the
  microphone level and silence flag are `db` and `isSilent`.
- Every timer expiry or animation frame is a method the host calls.
- Numbers are exact reals and unbounded integers. `Math.round` is
  `floor(x + 0.5)`.
- A JavaScript `null`, `undefined`, `NaN` or infinite value is the `None`
  of an `Option`.

A few behaviours are easy to misread, so here they are, each as the code
has it:

- the pitch detector's trim cuts at the first sample with `|x| < 0.2`
  (hooks/usePitchDetector.ts:46,49);
- `stop` clears the timer but keeps the bar and beat counters
  (hooks/useMetronome.ts:130-135); only `reset` returns them to bar 1 beat 1;
- `resetCalibration` restores the default thresholds and the idle step but
  leaves both recordings as they are (components/DynamicsMeter.tsx:143-147);
- the volume smoothing takes the raw level unsmoothed whenever the previous
  level is exactly -100 dB (hooks/useVolume.ts:45).

## Model

| member | source | states |
|---|---|---|
| JsMath.Round | hooks/useTapTempo.ts:38 | `Math.round` is the integer within one half below and strictly less than one half above |
| JsMath.RoundIsNearest | hooks/useTapTempo.ts:38 | no integer is nearer to `x` than its rounding |
| JsMath.ClampInt | App.tsx:41 | `Math.min(Math.max(x, lo), hi)` lies in `[lo, hi]`, is `x` inside, and the violated bound outside |
| JsMath.ClampReal | components/DynamicsMeter.tsx:194 | `Math.min(hi, Math.max(lo, x))` lies in `[lo, hi]`, is `x` inside, and the violated bound outside |
| Constants.Config | constants.ts:7-16 | every signature has at least one beat and a note value of 4 or 8, and its beats and value spell its `TimeSignature` key |
| Constants.NatToString | constants.ts:7-16 | the decimal spelling of a number, at least one character and only digits, from which the signature labels are built; `Config` states that each label spells its beats and note value |
| Metronome.SecondsPerBeat | hooks/useMetronome.ts:100 | `60 / bpm` is positive, and times `bpm` it gives 60 |
| Metronome.Advance | hooks/useMetronome.ts:104-108 | the beat step; its meaning is stated by `AdvanceWraps`, `AdvanceStepsOnce` and `AdvanceNCounts` |
| Metronome.AdvanceWraps | hooks/useMetronome.ts:104-108 | the step wraps to beat 1 of the next bar exactly when the beat has reached the bar length; it never moves the bar back; it lands inside the bar even after the bar length shrank |
| Metronome.AdvanceStepsOnce | hooks/useMetronome.ts:104-108 | one step keeps the cursor in the bar and moves its position on by one beat |
| Metronome.AdvanceNCounts | hooks/useMetronome.ts:104-108 | with a fixed bar length, `k` steps keep the cursor in the bar, never lower the bar, and move on exactly `k` beats |
| Metronome.CursorFromStart | hooks/useMetronome.ts:104-108 | from bar 1 beat 1, `k` steps give bar `k / n + 1` and beat `k % n + 1` |
| Metronome.VisualDelay | hooks/useMetronome.ts:80-86 | the visual delay `max(0, (time - now) * 1000)` is never negative and is the raw delay when that is positive |
| Metronome.VisualDelayMonotone | hooks/useMetronome.ts:80-86 | a later click never gets an earlier visual update |
| Metronome.NoteEvent | hooks/useMetronome.ts:39-88 | one scheduled click: its time, the cursor it shows, the downbeat flag of beat 1, 1200 Hz on the downbeat and 800 Hz otherwise unless muted, and its visual delay; `PassEventsSpaced` states what a pass of them promises |
| Metronome.PassEventsSpaced | hooks/useMetronome.ts:96-101 | clicks of one pass are strictly increasing in time, exactly `(j - i) * 60/bpm` apart, with non-decreasing visual delays |
| Metronome.GridExtends | hooks/useMetronome.ts:94-109 | a pass that starts at the grid's next time keeps every click on the grid `t0 + k * 60/bpm`, so passes at one tempo do not drift |
| Metronome.BeatsToCover | hooks/useMetronome.ts:94 | a number of beats whose span covers the look-ahead window bounds the loop, so it ends when `bpm > 0` |
| Metronome.IsPass | hooks/useMetronome.ts:94-109 | what one lookahead pass does: exactly the clicks before `now + 0.1`, one beat apart from the old next-note time and cursor, the next-note time past the window and the cursor advanced once per click |
| Metronome.Metronome.constructor | hooks/useMetronome.ts:16-27 | stopped, no audio context, no events, bar 1 beat 1 and a next-note time of 0 |
| Metronome.Metronome.ScheduleAhead | hooks/useMetronome.ts:94-109 | the loop emits exactly the clicks `k` with `t0 + k * 60/bpm < now + 0.1`, each carrying the cursor from before its advance; it leaves the next-note time at or past `now + 0.1` and the counters advanced by the number of clicks |
| Metronome.Metronome.Scheduler | hooks/useMetronome.ts:90-112 | without an audio context nothing changes; otherwise the loop's clicks are appended to the events, the timer is re-armed, the display is untouched, and the tempo grid is kept or re-anchored on a tempo change |
| Metronome.Metronome.Start | hooks/useMetronome.ts:114-128 | a no-op while playing or without an audio context; otherwise it sets `nextNoteTime = now + 0.1`, keeps the counters, starts playing, arms the timer and anchors the grid at `now + 0.1` |
| Metronome.Metronome.TimerFires | hooks/useMetronome.ts:90-112 | a pending timer runs one pass: with an audio context the appended clicks are exactly the pass from the old next-note time and counters, the next-note time ends past `now + 0.1`, the counters advance once per click and the timer is re-armed; with no pending timer nothing changes; the display is untouched and the tempo grid is kept at an unchanged tempo |
| Metronome.Metronome.SettingsChanged | hooks/useMetronome.ts:153-158 | while playing the timer is cleared and one pass runs at once, with the same appended clicks, next-note time, counters and re-armed timer as a timer pass; when stopped nothing changes; the display is untouched and the tempo grid is kept at an unchanged tempo |
| Metronome.Metronome.Stop | hooks/useMetronome.ts:130-135 | playing ends and the timer clears; the counters, the display and the events are kept |
| Metronome.Metronome.Reset | hooks/useMetronome.ts:137-143 | stops, and puts both the displayed and the internal cursor at bar 1 beat 1 |
| Metronome.Metronome.DrawVisuals | hooks/useMetronome.ts:74-78 | the display takes the click's own bar and beat; the counters and the timer are untouched |
| Metronome.StartThenTwoPasses | hooks/useMetronome.ts:90-128 | after `start` at `now0` and two timer passes at one tempo, every click since the start lies on `now0 + 0.1 + k * 60/bpm` and the next one continues the grid past the last window |
| TempoEstimate.Diffs | hooks/useTapTempo.ts:30-32 | one interval fewer than taps, and each interval is the difference of consecutive taps |
| TempoEstimate.SumDiffsTelescopes | hooks/useTapTempo.ts:29-35 | the intervals sum to the window's span |
| TempoEstimate.Intervals | hooks/useTapTempo.ts:29-32 | the interval loop builds exactly the consecutive differences |
| TempoEstimate.MeanIntervalIsSpan | hooks/useTapTempo.ts:35 | the average interval is `(last - first) / (n - 1)` |
| TempoEstimate.TempoFromAverage | hooks/useTapTempo.ts:38-43 | a reported tempo is `round(60000 / avg)` in `[30, 300]` with a positive average; nothing is reported for a zero average or a rounded tempo out of range |
| TempoEstimate.TempoOf | hooks/useTapTempo.ts:29-43 | the tempo of a window of taps; `MeanIntervalIsSpan` and `TempoMeansInterval` state what it is |
| TempoEstimate.TempoMeansInterval | hooks/useTapTempo.ts:38-43 | a reported tempo is within one half of `60000 / avg`, and the average lies between about 199.7 ms and 2034 ms |
| TempoEstimate.EvenSpacingMean | components/TapTempo.tsx:30-36 | taps evenly `p` apart have mean interval `p` |
| TempoEstimate.HalfSecondTapsGive120 | hooks/useTapTempo.ts:38 | taps 500 ms apart give 120 bpm |
| TapTempoHook.AfterTap | hooks/useTapTempo.ts:9-16 | after a pause the list is `[now]`; otherwise `now` is appended |
| TapTempoHook.StartsNewSequence | hooks/useTapTempo.ts:12-14 | the pause test; `GapIsStrict` states that more than 2000 ms starts over and exactly 2000 ms does not |
| TapTempoHook.RecentTaps | hooks/useTapTempo.ts:27 | the window is the last `min(5, n)` taps |
| TapTempoHook.ReportedTempo | hooks/useTapTempo.ts:23-44 | the hook's tempo; `OneTapNoTempo` and `ReportedTempoOfSpan` state what it reports |
| TapTempoHook.Hook.HandleTap | hooks/useTapTempo.ts:7-48 | stores the new sequence and reports its length and the tempo of its recent window |
| TapTempoHook.GapIsStrict | hooks/useTapTempo.ts:12-14 | a pause over 2000 ms discards the earlier taps; exactly 2000 ms keeps them |
| TapTempoHook.CountAfterTap | hooks/useTapTempo.ts:16-20 | the count is at least 1, is 1 exactly on a new sequence or a first tap, and the stored list is never truncated within a sequence |
| TapTempoHook.OneTapNoTempo | hooks/useTapTempo.ts:23-25 | fewer than two taps report no tempo |
| TapTempoHook.ReportedTempoOfSpan | hooks/useTapTempo.ts:27-44 | the tempo is the range-checked rounding of `60000` over the recent window's span per gap |
| TapTempoHook.FourTapsThenPause | hooks/useTapTempo.ts:12-47 | four taps 500 ms apart give 120 bpm and count 4; a tap 3000 ms later gives count 1 and no tempo |
| TapTempoButton.Appended | components/TapTempo.tsx:20-25 | `now` is appended and the oldest tap is shifted out when that makes six |
| TapTempoButton.AfterTap | components/TapTempo.tsx:15-26 | the stored taps after a tap; `AfterTapShape` and `StaysSorted` state their shape |
| TapTempoButton.Reported | components/TapTempo.tsx:28-44 | the callback value; `CallbackGate` states when it fires and what it is |
| TapTempoButton.Button.HandleTap | components/TapTempo.tsx:11-46 | the stored taps are updated and the callback value is returned; at most five taps stay stored |
| TapTempoButton.AfterTapShape | components/TapTempo.tsx:15-26 | after a pause the list is exactly `[now]` and no callback fires; otherwise `now` is last and the newest at most five taps are kept |
| TapTempoButton.CallbackGate | components/TapTempo.tsx:28-44 | a callback comes from at least two taps and no pause, is in `[30, 300]`, and is the tempo of the stored window |
| TapTempoButton.StaysSorted | components/TapTempo.tsx:20-26 | taps arriving in time order keep the stored list sorted |
| Signal.SumOfSquares | hooks/useVolume.ts:30-33 | the sum-of-squares loop computes `Σ x²` over the whole buffer |
| Signal.SumSqZeroIffSilent | hooks/useVolume.ts:30-40 | a sum of squares is non-negative, and zero exactly when every sample is zero |
| Signal.GateWithoutRoot | hooks/usePitchDetector.ts:37-39 | `sqrt(sum / size) < 0.01` holds exactly when `sum < 0.0001 * size` |
| Volume.Meter.constructor | hooks/useVolume.ts:10-14 | the initial state is rms 0, -100 dB, silent |
| Volume.RawDb | hooks/useVolume.ts:34-40 | -100 dB for a zero level and the given logarithm otherwise; `RmsZeroIffSilent` ties the -100 to an all-zero buffer |
| Volume.Smooth | hooks/useVolume.ts:43-45 | the smoothing rule; `SeedTakesRaw`, `SmoothBetween` and `SmoothConverges` state what it does |
| Volume.Meter.UpdateVolume | hooks/useVolume.ts:22-52 | `rms` is the raw root mean square; `db` is the smoothed level; `isSilent` compares the raw level with -60 |
| Volume.Meter.StopMic | hooks/useVolume.ts:107 | the state becomes exactly rms 0, -100 dB, silent |
| Volume.RmsZeroIffSilent | hooks/useVolume.ts:34-40 | the root mean square is zero exactly for an all-zero buffer, whose level is -100 dB |
| Volume.SeedTakesRaw | hooks/useVolume.ts:45 | after a level of exactly -100 the raw level is taken unsmoothed |
| Volume.SmoothBetween | hooks/useVolume.ts:44-45 | otherwise the new level lies between the previous and the raw level, 0.8 of the old gap away from the raw one |
| Volume.SmoothConverges | hooks/useVolume.ts:45 | fed a constant level, the distance to it shrinks at least by 0.8 per frame |
| PitchDetector.TrimStart | hooks/usePitchDetector.ts:42-47 | the first scan gives the first low sample of the first half, else 0 |
| PitchDetector.IsQuiet | hooks/usePitchDetector.ts:31-39 | the level gate; `Signal.GateWithoutRoot` ties it to `sqrt(sum / size) < 0.01` |
| PitchDetector.TrimEnd | hooks/usePitchDetector.ts:43-50 | the second scan gives `size - i` for the first low `buf[size - i]`, else `size - 1` |
| PitchDetector.StartCutFromIsFirst | hooks/usePitchDetector.ts:45-47 | the found start cut is low and every earlier first-half sample is not |
| PitchDetector.EndCutFromIsFirst | hooks/usePitchDetector.ts:48-50 | the found end cut is low and every sample nearer the end is not |
| PitchDetector.TrimBounds | hooks/usePitchDetector.ts:41-53 | for at least two samples `0 <= r1 < r2 <= size - 1`, so the trimmed buffer is non-empty |
| PitchDetector.Corr | hooks/usePitchDetector.ts:56-61 | the table has one entry per sample |
| PitchDetector.CorrAtZero | hooks/usePitchDetector.ts:56-61 | `c[0]` is the energy of the trimmed buffer and is non-negative |
| PitchDetector.CorrelationFill | hooks/usePitchDetector.ts:56-61 | the double loop fills `c[i] = Σ_{j < size-i} b[j] * b[j+i]` |
| PitchDetector.DescentEndFromIsEnd | hooks/usePitchDetector.ts:64-65 | `d` ends the initial strictly falling run: `c[k] > c[k+1]` for `k < d`, and not at `d` |
| PitchDetector.DescentLoop | hooks/usePitchDetector.ts:64-65 | the `while` loop stops at that end |
| PitchDetector.Peak | hooks/usePitchDetector.ts:66-74 | the argmax scan, with `PeakIsFirstPeak` stating its outright meaning |
| PitchDetector.PeakIsFirstPeak | hooks/usePitchDetector.ts:66-74 | the scan gives the first index of the largest entry above -1 from `d` on, else -1 |
| PitchDetector.FirstPeakUnique | hooks/usePitchDetector.ts:66-74 | that outright description pins down one index |
| PitchDetector.FirstPeak | hooks/usePitchDetector.ts:66-74 | the argmax loop computes it |
| PitchDetector.Refine | hooks/usePitchDetector.ts:77-84 | the parabolic shift; `RefineNearPeak` states when it applies and how far it moves |
| PitchDetector.RefineNearPeak | hooks/usePitchDetector.ts:77-82 | the parabolic shift applies only with both neighbours and `a ≠ 0`, and moves a peak past the descent by at most half a sample |
| PitchDetector.AutoCorrelate | hooks/usePitchDetector.ts:29-85 | the whole routine on an array equals `Detect` on its contents: silence, or the refined period |
| PitchDetector.Detect | hooks/usePitchDetector.ts:29-85 | the whole detector on a buffer; `GuardedDetectSound` and the two examples state what it yields |
| PitchDetector.ZeroPeriodExample | hooks/usePitchDetector.ts:41-85 | `[0.9, 0, 0, 0.9]` passes the gate and yields period 0 |
| PitchDetector.NegativePeriodExample | hooks/usePitchDetector.ts:63-85 | `[1, -1, 1]` passes the gate and yields period -1 |
| PitchDetector.GuardedDetectSound | hooks/usePitchDetector.ts:31-85 | with the guard, a period is reported exactly for a loud buffer whose peak lies past lag 0, and it is at least one half |
| PitchDetector.JsRem | hooks/usePitchDetector.ts:91 | JavaScript `%`: the remainder takes the dividend's sign |
| PitchDetector.GetNote | hooks/usePitchDetector.ts:87-102 | note name, cents and octave of a note number; `GetNoteFacts` and `NoteExamples` state them |
| PitchDetector.GetNoteFacts | hooks/usePitchDetector.ts:87-101 | for MIDI ≥ 0 the name is `NOTE_STRINGS[midi % 12]` and `12 * (octave + 1) + index == midi`; the cents lie in `[-50, 50)` |
| PitchDetector.NoteExamples | hooks/usePitchDetector.ts:88-94 | MIDI 69 is A4 and MIDI 60 is C4 |
| PitchDetector.Tracker.constructor | hooks/usePitchDetector.ts:14-20 | the initial reading is `-`, 0 cents, 0 Hz, silent, octave 0 |
| PitchDetector.Tracker.UpdatePitch | hooks/usePitchDetector.ts:104-124 | only a detector result of exactly `-1` counts as silence and sets `isSilent` alone; every other frame is stored as sounding, with the `getNote` reading of a positive frequency, and with an infinite frequency for period 0 or a negative one for period -1, both without note, cents or octave |
| PitchDetector.Tracker.Shows | hooks/usePitchDetector.ts:116-123 | a sounding frame at frequency `f`: `getNote` of a positive `f`, and no note, cents or octave where the logarithms of a non-positive or infinite `f` give `NaN` or an infinity |
| PitchDetector.Tracker.Store | hooks/usePitchDetector.ts:116-123 | `setPitchData` of a sounding frame shows exactly that reading |
| PitchDetector.Tracker.UpdatePitchGuarded | hooks/usePitchDetector.ts:104-124 | with the guarded detector a pitched frame has a positive period and stores its reading, and every other frame only sets `isSilent` |
| PitchDetector.DegenerateFrames | hooks/usePitchDetector.ts:104-124 | as written, `[0.9, 0, 0, 0.9]` and then `[1, -1, 1]` are stored as sounding frames, the second with frequency `-sampleRate`, and neither with a note |
| DynamicsMarking.Rank | components/DynamicsMeter.tsx:24 | every key has its place in `DYNAMIC_ORDER` |
| DynamicsMarking.DefaultsIncreasing | components/DynamicsMeter.tsx:12-24 | the default thresholds rise strictly along `DYNAMIC_ORDER` |
| DynamicsMarking.NearestFromIsMinimum | components/DynamicsMeter.tsx:159-165 | no key of the rest of the order is nearer than the scan's choice |
| DynamicsMarking.NearestFromIsFirst | components/DynamicsMeter.tsx:159-165 | every key before the choice is strictly farther: ties go to the earlier key |
| DynamicsMarking.NearestUnique | components/DynamicsMeter.tsx:159-165 | the nearest-first key is unique |
| DynamicsMarking.NearestIsNearest | components/DynamicsMeter.tsx:159-165 | the reference scan yields the nearest-first key |
| DynamicsMarking.Nearest | components/DynamicsMeter.tsx:159-165 | the nearest key, ties to the earliest in `DYNAMIC_ORDER`; `NearestIsNearest` states it |
| DynamicsMarking.GetDynamicMarking | components/DynamicsMeter.tsx:150-174 | the loop with `minDiff = Infinity` returns Silent exactly when `db < ppp - 10`, and otherwise the key nearest to `db` with ties to the earliest |
| DynamicsMarking.Classify | components/DynamicsMeter.tsx:150-174 | the marking of a level; `GetDynamicMarking` computes it and `DefaultExamples` shows it on the defaults |
| DynamicsMarking.DefaultExamples | components/DynamicsMeter.tsx:150-174 | with the defaults, -24 gives mf, -20 (a tie of mf and f) gives mf, and -71 is silent |
| DynamicsMarking.BarPercentage | components/DynamicsMeter.tsx:191-194 | with ppp ≠ fff the bar lies in `[0, 100]`, and is 0 at or below ppp and 100 at or above fff when ppp < fff |
| RobustStats.Insert | components/DynamicsMeter.tsx:114 | inserting keeps the sequence sorted and adds exactly one element |
| RobustStats.Sort | components/DynamicsMeter.tsx:114 | the sort is sorted and a permutation |
| RobustStats.SumBounds | components/DynamicsMeter.tsx:112-122 | a sum of values in `[lo, hi]` lies in `[n lo, n hi]` |
| RobustStats.MeanBounds | components/DynamicsMeter.tsx:112-122 | a mean of values in `[lo, hi]` lies in `[lo, hi]` |
| RobustStats.SliceBounds | components/DynamicsMeter.tsx:112-122 | with five or more samples the bottom `ceil(0.3 n)` and the top from `floor(0.7 n)` are non-empty, and the bottom ends before the top starts |
| RobustStats.RobustMin | components/DynamicsMeter.tsx:112-122 | the quiet level: the mean of the lowest `ceil(0.3 n)` samples, -60 below five; stated by `RobustWithinSamples` and `FewSamplesFallBack` |
| RobustStats.RobustMax | components/DynamicsMeter.tsx:112-122 | the loud level: the mean of the samples from `floor(0.7 n)` on, -5 below five; stated by `RobustWithinSamples` and `RobustMinAtMostMax` |
| RobustStats.RobustWithinSamples | components/DynamicsMeter.tsx:112-122 | with five or more samples both robust levels lie within any bounds the samples respect |
| RobustStats.RobustMinAtMostMax | components/DynamicsMeter.tsx:112-122 | on one recording the quiet level never exceeds the loud level |
| RobustStats.FewSamplesFallBack | components/DynamicsMeter.tsx:113 | below five samples the levels are -60 and -5 |
| DynamicsMeter.SmoothStepApproaches | components/DynamicsMeter.tsx:62-70 | a frame never overshoots; it snaps under 0.1 dB; otherwise it closes 20% of the gap rising and 5% falling |
| DynamicsMeter.SmoothStep | components/DynamicsMeter.tsx:62-70 | one smoothing frame; `SmoothStepApproaches` and `SmoothReachesTarget` state it |
| DynamicsMeter.SmoothReachesTarget | components/DynamicsMeter.tsx:62-74 | a fixed target is reached exactly after enough frames |
| DynamicsMeter.CalibratedRange | components/DynamicsMeter.tsx:124-127 | the loud level ends more than 10 dB above the quiet one; it is the recorded one if that already holds, else quiet + 20 |
| DynamicsMeter.SpreadSteps | components/DynamicsMeter.tsx:130-136 | the key at place `i` sits at `lo + i (hi - lo) / 7` |
| DynamicsMeter.Spread | components/DynamicsMeter.tsx:130-136 | the evenly spaced thresholds; `SpreadShape` states them |
| DynamicsMeter.SpreadShape | components/DynamicsMeter.tsx:130-136 | the spread starts at `lo`, ends at `hi`, steps by a seventh of the span and rises strictly |
| DynamicsMeter.Calibrated | components/DynamicsMeter.tsx:124-136 | calibration defines every key |
| DynamicsMeter.CalibratedIncreasing | components/DynamicsMeter.tsx:124-139 | calibrated thresholds rise strictly; ppp is the robust quiet level and fff lies more than 10 dB above it |
| DynamicsMeter.EmptyLoudTakeFff | components/DynamicsMeter.tsx:113-127 | with the empty loud take the finishing timer sees, fff is -5 dB, or ppp + 20 when -5 is not more than 10 dB above ppp, whatever was played loud |
| DynamicsMeter.StaleLoudTakeExample | components/DynamicsMeter.tsx:102-127 | ten quiet levels at -50 dB and ten loud ones at -10 dB put fff at -10 dB from both recordings but at -5 dB from the timer's view |
| DynamicsMeter.Bar | components/DynamicsMeter.tsx:191-194 | the bar is `NaN` (None) exactly for `0 / 0`, else in `[0, 100]`; with ppp = fff it is 100 above and 0 below |
| DynamicsMeter.FillSpread | components/DynamicsMeter.tsx:133-136 | the `forEach` over the copied thresholds overwrites every key with the spread |
| DynamicsMeter.Meter.constructor | components/DynamicsMeter.tsx:42-53 | default thresholds, not editing, -100 dB, idle, empty recordings |
| DynamicsMeter.Meter.UpdateSmooth | components/DynamicsMeter.tsx:62-70 | one smoothing frame towards -100 when silent, else towards `db`; nothing else changes |
| DynamicsMeter.Meter.RecordFrame | components/DynamicsMeter.tsx:81-84 | a non-silent level is appended to the quiet recording only in `min_recording`, and to the loud one only in `max_recording` |
| DynamicsMeter.Meter.StartCalibration | components/DynamicsMeter.tsx:87-92 | clears both recordings, leaves edit mode, step `min_intro` |
| DynamicsMeter.Meter.StartRecordingMin | components/DynamicsMeter.tsx:94-96 | step `min_recording` and only the quiet recording cleared |
| DynamicsMeter.Meter.MinTimerFires | components/DynamicsMeter.tsx:97-99 | the timer moves to `max_intro` |
| DynamicsMeter.Meter.StartRecordingMax | components/DynamicsMeter.tsx:102-108 | step `max_recording` and only the loud recording cleared; the armed timer keeps the recordings as they were before the call |
| DynamicsMeter.Meter.Calibrate | components/DynamicsMeter.tsx:124-139 | the body of `finishAutoCalibration` on the recordings it sees installs their calibrated, strictly rising thresholds and sets step `finished` |
| DynamicsMeter.Meter.FinishTimerFires | components/DynamicsMeter.tsx:105-107 | as written, the timer calibrates from the recordings of the render that armed it, not from the current loud take |
| DynamicsMeter.Meter.FinishAutoCalibration | components/DynamicsMeter.tsx:110-141 | calibrating from the current recordings, the loud take included, installs strictly rising thresholds and sets step `finished` |
| DynamicsMeter.Meter.IdleTimerFires | components/DynamicsMeter.tsx:140 | the timer returns the step to `idle` |
| DynamicsMeter.Meter.ResetCalibration | components/DynamicsMeter.tsx:143-147 | default thresholds and step `idle`; the recordings are kept |
| DynamicsMeter.Meter.HandleThresholdChange | components/DynamicsMeter.tsx:177-179 | only the named key changes |
| DynamicsMeter.Meter.CaptureCurrentAs | components/DynamicsMeter.tsx:181-185 | a no-op when silent; otherwise the key takes `round(smoothedDb)` |
| DynamicsMeter.Meter.ToggleEditing | components/DynamicsMeter.tsx:324 | edit mode flips |
| DynamicsMeter.Meter.CloseEditing | components/DynamicsMeter.tsx:361 | edit mode ends |
| DynamicsMeter.Meter.DisplayDynamic | components/DynamicsMeter.tsx:187-189 | silent, idle and not editing shows Silent; otherwise the marking of the smoothed level |
| DynamicsMeter.CalibrationAsWritten | components/DynamicsMeter.tsx:87-141 | the wizard run start to finish keeps both recordings, yet installs the thresholds of the quiet take with an empty loud take |
| DecibelMeter.CurrentSpl | components/DecibelMeter.tsx:16-19 | 0 when silent, else `max(0, db + 100)`; never negative |
| DecibelMeter.Normalized | components/DecibelMeter.tsx:34-35 | `SPL / 120 * 100` clamped to `[0, 100]` |
| DecibelMeter.BandOf | components/DecibelMeter.tsx:41-56 | the bands partition the SPL with strict lower bounds: >105, (90, 105], (80, 90], (50, 80], ≤50 |
| DecibelMeter.StatusText | components/DecibelMeter.tsx:41-56 | the label of each band; `BandOf` states which reading gets which band |
| DecibelMeter.BandMonotone | components/DecibelMeter.tsx:41-56 | a louder reading never lands in a quieter band |
| DecibelMeter.NormalizedMonotone | components/DecibelMeter.tsx:34-35 | a louder reading never gives a shorter bar |
| DecibelMeter.PeakHold.constructor | components/DecibelMeter.tsx:11 | the peak starts at 0 |
| DecibelMeter.PeakHold.Observe | components/DecibelMeter.tsx:21-24 | the peak rises to the reading when the reading exceeds it |
| DecibelMeter.PeakHold.DecayTick | components/DecibelMeter.tsx:26-28 | one tick gives `max(p - 0.5, 0)`: never negative, dropping at most 0.5 |
| DecibelMeter.DecayFramesClosedForm | components/DecibelMeter.tsx:26-28 | after `n` ticks with no louder reading the peak is `max(p - 0.5 n, 0)` |
| Tuner.ClampedCents | components/Tuner.tsx:14 | the cents clamped to `[-50, 50]` |
| Tuner.Rotation | components/Tuner.tsx:17 | the needle lies in `[-90, 90]` degrees, 1.8 degrees per clamped cent, with the sign of the cents |
| Tuner.Flags | components/Tuner.tsx:20-22 | the three status flags; `ExactlyOneFlag` states that exactly one holds when not silent |
| Tuner.ExactlyOneFlag | components/Tuner.tsx:20-22 | when not silent exactly one of in-tune, sharp and flat holds, in tune meaning `|cents| <= 3`; none holds when silent |
| Tuner.StatusText | components/Tuner.tsx:29-49 | `Listening...` when silent, else PERFECT, TOO LOW or TOO HIGH by the cents |
| Tuner.Reference.constructor | components/Tuner.tsx:10 | the reference starts at 442 Hz |
| Tuner.Reference.Decrease | components/Tuner.tsx:51 | the reference drops by one, not below 430 |
| Tuner.Reference.Increase | components/Tuner.tsx:52 | the reference rises by one, not above 450 |
| App.ClampBpm | App.tsx:40-42 | the tempo is clamped into `[30, 300]`, and is the identity inside |
| App.ClampBpmIdempotent | App.tsx:40-42 | clamping twice is clamping once |
| App.Truthy | App.tsx:58 | `if (bpm)`: a missing tempo and a tempo of 0 are not applied; `HandleTapUpdate` states the effect |
| App.App.constructor | App.tsx:18-27 | 120 bpm, 4/4, no overrides, not muted, no taps, a stopped engine |
| App.App.BeatsPerBar | App.tsx:30 | the custom beats when set, else the signature's beats; always at least 1 |
| App.App.NoteValue | App.tsx:31 | the custom note value when set, else the signature's |
| App.App.HandleBpmChange | App.tsx:40-42 | the tempo becomes the clamped value; nothing else changes |
| App.App.HandleTapUpdate | App.tsx:45-61 | the tap count is always set; a count ≥ 1 becomes the bar length and sets quarter notes only when no note value was set; a truthy tempo is clamped in, otherwise the tempo is unchanged |
| App.App.HandleTimeSigChange | App.tsx:82-89 | the new signature clears both overrides and the tap count, so its own beats and value apply |
| App.App.HandleStart | App.tsx:66-69 | the tap count is cleared and the engine started: with an audio context and not yet playing it plays with the next click at `now + 0.1`, the counters and events kept and the timer armed, otherwise the engine is unchanged, the timer flag included; tempo, signature, overrides and mute are kept |
| App.App.HandleReset | App.tsx:71-74 | the tap count is cleared and the engine stopped with both its displayed and internal cursor at bar 1 beat 1; tempo, signature, overrides and mute are kept |
| App.App.HandleStop | App.tsx:76-92 | the engine stops and its timer is cleared; the counters, scheduled events, next-note time and audio context are kept, the tap count is kept, and tapping mode holds exactly when taps were counted |
| App.TapThenChangeSignature | App.tsx:45-89 | tapping sets a bar of the tap count in quarter notes and shows the taps, and a new signature restores its own bar length |
| Dictionary.FormatDefinition | constants/dictionaryData.ts:6-9 | the text opens with `**術語**：original / chinese` and ends with the playing advice |
| Dictionary.AliasTargetsKnown | constants/dictionaryData.ts:184-199 | every alias names a key of `DB` |
| Dictionary.TableKeysShape | constants/dictionaryData.ts:11-199 | no key and no alias is empty or starts with a capital letter |
| Dictionary.TrimStart | constants/dictionaryData.ts:201 | drops exactly the leading white space |
| Dictionary.TrimEnd | constants/dictionaryData.ts:201 | drops exactly the trailing white space |
| Dictionary.Trim | constants/dictionaryData.ts:201 | neither end of the result is white space |
| Dictionary.NormalizeIdempotent | constants/dictionaryData.ts:201 | a normalised term is trimmed and has no capitals, and normalising it again changes nothing |
| Dictionary.Normalize | constants/dictionaryData.ts:201 | trim then lower-case; `NormalizeIdempotent` states the result |
| Dictionary.AliasFrom | constants/dictionaryData.ts:206 | `ALIAS_MAP[key]` is an entry's target when some entry has that key, and missing when none has |
| Dictionary.PartialFrom | constants/dictionaryData.ts:209 | `find` gives the first key that contains the query or is contained in it, or nothing when none does |
| Dictionary.SearchStages | constants/dictionaryData.ts:203-212 | an exact key wins; otherwise an alias is always resolved; otherwise the first partial match in `DB` order is returned, and null exactly when there is none |
| Dictionary.Search | constants/dictionaryData.ts:203-212 | the lookup; `SearchStages`, `SearchReturnsKey` and `SearchNormalized` state what it finds |
| Dictionary.SearchReturnsKey | constants/dictionaryData.ts:203-212 | whatever is found is a key of `DB` |
| Dictionary.SearchNormalized | constants/dictionaryData.ts:201-204 | padding and capitals do not change the lookup |
| Dictionary.BlankTermFindsFirstKey | constants/dictionaryData.ts:209-210 | a blank term finds `largo`, the first key, because every key contains the empty string |
| Dictionary.SearchExample | constants/dictionaryData.ts:203-212 | `rit.` finds `ritardando` through the alias table |
| Dictionary.FilterExact | constants/dictionaryData.ts:222-229 | a pass keeps exactly the strings that contain the query |
| Dictionary.AddAllFacts | constants/dictionaryData.ts:219-229 | adding to the set keeps it free of duplicates, keeps what was there as a prefix, and ends up with the old and the added strings |
| Dictionary.MatchesExact | constants/dictionaryData.ts:219-229 | the set holds exactly the keys and aliases that contain the query, without duplicates, and the matching keys come first |
| Dictionary.AddMatching | constants/dictionaryData.ts:222-229 | one `forEach` pass adds the matching strings in order |
| Dictionary.GetSuggestions | constants/dictionaryData.ts:215-235 | the two passes and the slice compute the suggestions |
| Dictionary.SuggestionsBounded | constants/dictionaryData.ts:215-235 | an empty query gives nothing, and at most six are ever shown |
| Dictionary.Suggestions | constants/dictionaryData.ts:215-235 | the autocomplete list; `SuggestionsBounded` and `SuggestionsSound` state it |
| Dictionary.SuggestionsSound | constants/dictionaryData.ts:219-234 | the suggestions are the first matches capitalised, each contains the query, and none is shown twice |

## Left out

- Web Audio, the microphone and the stream teardown are platform I/O.
  The model keeps only the flags they set: whether an audio context
  exists, and the silence after `stopMic`.
- Timers, `requestAnimationFrame`, `clearTimeout` and React's effect
  ordering are left out. Each timer expiry or frame is a method the host
  calls. A cancelled timer is modelled only as the metronome's
  `timerPending` flag. `resetCalibration`'s `clearTimeout` and the
  per-click visual timeouts are not tracked, so a reset does not stop
  `FinishTimerFires` in the model.
- `Math.sqrt`, `Math.log`, `Math.log10`, `Math.log2` and `Math.pow` are not
  modelled, for three reasons:
  - `Volume.Meter.UpdateVolume` takes `sqrt` as any non-negative square
    root and leaves `log10` free;
  - `PitchDetector.GetNote` takes the note number `12 log2(f / a4)` as
    input;
  - the cents use the exact identity `log2(f / target) = (noteNum - (midi - 69)) / 12`.
- Floating point is replaced by exact reals:
  - RobustStats.TopStart: `Math.floor(n * 0.7)` is the exact `(7n) / 10`.
    In doubles, `n * 0.7` lies just below the integer for n = 90, 170, 180,
    330, 340, 350 and 360 (of the n below 400), so there the source starts the loud
    slice one sample earlier. That is within reach of a three-second take
    at about 60 frames per second. `Math.ceil(n * 0.3)` agrees with the
    model's `(3n + 9) / 10` for every n below 400;
  - `PitchDetector.AutoCorrelate` returns the period; the division
    `sampleRate / T0` happens in the frame update.
- The tracker stores `Infinity` as a missing frequency and `NaN` or an
  infinite octave as a missing value. The tuner display is modelled on
  integer cents, so how it renders the `NaN` cents of such a frame is not
  modelled.
- PitchDetector.AutoCorrelate requires at least two samples. A shorter
  buffer trims to nothing (`r1 < r2` fails), so the source returns
  `-sampleRate` without reading past the end. That case is not modelled,
  because the only caller passes the analyser's `fftSize`, which is set
  to 2048 (hooks/usePitchDetector.ts:107-111 and 152).
- The sort comparator `a - b` on floats is modelled as an exact ascending
  sort.
- Dictionary:
  - `trim` and `toLowerCase` cover ASCII white space and A-Z only;
  - the definition texts of `DB` are not modelled, so a lookup returns the
    key whose definition the source returns;
  - prototype properties reachable through `DB[key]` and `ALIAS_MAP[key]`
    (such as `constructor`) are not modelled;
  - the alias lookup takes the first entry with that key. The source's
    object literal keeps the last, but no key is repeated.
- The slider's `parseInt` (components/DynamicsMeter.tsx:257) is not modelled.
  `HandleThresholdChange` takes the parsed number.
- App's muting toggle and settings panel, and all rendering, are
  presentation and are left out. The colour classes of the dynamics,
  decibel and tuner displays are left out too.
- Metronome.Metronome.Scheduler returns the pass's clicks only as a ghost
  value. Its visible effect is the `events` field, which the contract
  states in full.
- The LLM assistant, the service worker and the presentation components
  are not part of this model.

## Findings

| source | as written | input that shows it | evidently intended | confidence | as-written member | corrected member |
|---|---|---|---|---|---|---|
| hooks/usePitchDetector.ts:74-84 | a loud buffer whose trimmed part is silent gives peak 0, and the routine returns `sampleRate / 0`, which is `Infinity`, as a frequency | `[0.9, 0, 0, 0.9]` | a peak that is not past lag 0 means no pitch | not executed | PitchDetector.ZeroPeriodExample | PitchDetector.GuardedDetectSound |
| hooks/usePitchDetector.ts:66-84 | when no correlation after the descent exceeds -1, `maxpos` stays -1 and the routine returns the negative frequency `-sampleRate` | `[1, -1, 1]` | no pitch is reported when no peak is found | not executed | PitchDetector.NegativePeriodExample | PitchDetector.GuardedDetectSound |
| components/DynamicsMeter.tsx:102-108 | the finishing timer runs the `finishAutoCalibration` of the render in which the loud passage was started, whose `tempMax` is still empty, so fff is always -5 dB or ppp + 20 | ten quiet levels at -50 dB and ten loud ones at -10 dB | fff comes from the recorded loud take | not executed | DynamicsMeter.StaleLoudTakeExample | DynamicsMeter.Meter.FinishAutoCalibration |
