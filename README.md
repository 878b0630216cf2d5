# FocusFlow desk monitor — a verified Dafny model

FocusFlow runs on a microcontroller with an ultrasonic range sensor, a small display
and two keys. It decides whether someone is seated at the desk, counts down a target
sitting time, shows a "STAND UP" alarm when the target is reached, and keeps
statistics: the number of sittings and the total time away. This project models the
`SmartMonitor` object of `src/main.py` and proves properties of it:

- `DistanceFilter` (distance_filter.dfy): one echo measurement per call. A failed or
  non-positive echo becomes the 500 cm "far" sentinel. The reading goes into a
  five-slot FIFO history that starts as five sentinels. The filter returns the mean
  of the history.
- `InputHandler` (input_handler.dfy): the active-low keys with their 300 ms debounce.
- `Session` (session.dfy): the sitting/away state machine of one loop iteration. It
  keeps the session count, the session start, the away time and the remaining target
  time, and the lemmas cover runs of many iterations.
- `Views` (views.dfy): which screen is drawn (alarm, dashboard, countdown or away)
  and the text on it. That text is the two-tier `format_time` output, the `MM:SS`
  timer and the progress-bar width.
- `TimeFormat` (time_format.dfy): `format_time`, decimal text, and readers that turn
  the text back into numbers, so what is displayed can be stated as a round trip.
- `Monitor` (monitor.dfy): the class `SmartMonitor` with the source's fields. It has
  methods for the key handling, the filter step, the state-machine step and one whole
  loop iteration. Each method's contract ties the new fields to the functions above.

Units: wall-clock time is whole seconds, as `time.time()` returns on the board. Key
timing uses the separate millisecond tick count. Away time is kept in tenths of a
second, one tenth per away iteration, where the source adds the float `0.1`.
Distances are exact reals.

Three details of the code that the model keeps:

- A second press is accepted only when it comes strictly more than 300 ms after the
  last accepted one (src/main.py:66, 72). At exactly 300 ms it is ignored.
- The manual reset reads the wall-clock second itself, inside the key handler
  (src/main.py:73). The state machine reads the second again, after the distance
  measurement (src/main.py:120). The model therefore takes the two as separate inputs.
- On the whole-second clock, the alarm's flash phase `int(current_time * 2) % 2`
  (src/main.py:137) is always 0. The alarm is therefore always drawn inverted (white
  screen, black text and cup) and never alternates.

## Model

| member | source | states |
|---|---|---|
| TimeFormat.NatToString | src/main.py:57-58 | the decimal text of a count is non-empty, all digits, and starts with `0` only for zero |
| TimeFormat.ParseNatToString | src/main.py:57-58 | reading the decimal text of any count gives back that count |
| TimeFormat.SplitHours | src/main.py:54-56 | the hours, minutes and seconds of a count: minutes and seconds are in 0..59; hours and minutes fall within the last minute of the count; hours are positive exactly from 3600 s; below an hour, minutes and seconds add up to the count exactly |
| TimeFormat.FormatTimeReadsBack | src/main.py:52-58 | the formatted text always reads back as the duration. From 3600 s on it reads as `{h}h {m}m` with h >= 1 and the seconds dropped. Below an hour it reads as `{m}m {s}s`, exactly equal to the count |
| TimeFormat.FormatTime | src/main.py:52-58 | `format_time`; its meaning is stated by FormatTimeReadsBack (the text reads back as the duration) and FormatTimeExamples |
| TimeFormat.FormatTimeExamples | src/main.py:52-58 | 0 -> "0m 0s", 59 -> "0m 59s", 60 -> "1m 0s", 3600 -> "1h 0m", 3725 -> "1h 2m" |
| DistanceFilter.EchoDistance | src/main.py:44 | the distance of a positive echo is positive, and an echo shorter than 4665 us is nearer than the 80 cm sitting threshold |
| DistanceFilter.Reading | src/main.py:42-45 | a reading is always positive; a positive pulse gives exactly its echo distance; a timeout, a non-positive pulse or a read error gives exactly the 500 cm sentinel; a reading nearer than the sentinel comes from a positive pulse |
| DistanceFilter.Window | src/main.py:24 | after any number of readings the history has exactly five slots; slot k (0 the oldest) holds the reading 5 - k places from the end, so the newest is in slot 4; slot k holds the sentinel while fewer than 5 - k readings exist |
| DistanceFilter.WindowPush | src/main.py:48-49 | pushing a reading drops the oldest slot and appends the new reading last (strict FIFO) |
| DistanceFilter.Sum | src/main.py:50 | `sum(history)`; stated through SumOfFive and MeanBelow |
| DistanceFilter.Mean | src/main.py:50 | `sum(history) / len(history)`; stated through MeanBelow, InitialMeanIsFar and ConstantReadingsMean |
| DistanceFilter.SumOfFive | src/main.py:50 | the sum of a five-slot history is the sum of its five slots |
| DistanceFilter.MeanBelow | src/main.py:50 | the mean of the history is below a bound only if some slot is below it, and is below it whenever every slot is |
| DistanceFilter.InitialMeanIsFar | src/main.py:24 | at power-on the filtered distance is the 500 cm sentinel, so the monitor starts away |
| DistanceFilter.NearMeanNeedsEcho | src/main.py:43-50 | a filtered distance nearer than the sentinel needs a successful echo among the last five measurements; timeouts and read errors never make anyone look seated |
| DistanceFilter.ConstantReadingsMean | src/main.py:24-50 | after n equal readings from power-on the filtered distance is that reading from the fifth on; before that, each sentinel left in the history adds a fifth of 500 cm |
| InputHandler.Fires | src/main.py:65-66 | one key's debounced press: the line reads 0 and more than 300 ms have passed since the last accepted press; stated over many polls by AcceptedSpaced, AcceptedArePresses and TwoPresses |
| InputHandler.AcceptedSpaced | src/main.py:65-74 | over any polls of one key, accepted presses are strictly more than 300 ms after the previous accepted press and after each other, and the key's last-press field ends at the last accepted press |
| InputHandler.AcceptedArePresses | src/main.py:65-74 | every accepted press is a poll at which the line read 0, so no event fires while the line is released, and there are never more events than polls |
| InputHandler.TwoPresses | src/main.py:65-68 | two presses 300 ms or less apart give one event; more than 300 ms apart give two |
| Session.Step | src/main.py:123-157 | after a tick the sitting flag says whether the distance was below 80 cm. The session count rises by one exactly on an away-to-sitting edge, and only then does the session start move to the tick's time. Away time grows by one tick exactly on an away tick |
| Session.Reset | src/main.py:73 | the reset key restarts the countdown: the remaining time at the reset's second is the full target, and the sitting flag, session count and away time are unchanged |
| Session.Remaining | src/main.py:131-132 | no time remains exactly when the target time has elapsed since the session start, and never more than the target once the session has begun |
| Session.InAlarm | src/main.py:134 | the alarm condition, sitting with no time remaining; stated by SitDown, AlarmPersists and ViewChoice |
| Session.RunMetrics | src/main.py:123-157 | over any run, the session count grows by the number of away-to-sitting edges and the away time by one tick per away iteration, so neither ever decreases; the sitting flag follows the last distance |
| Session.StaySeated | src/main.py:123-128 | while the distance stays below the threshold nothing changes: no new session, no away time, same session start |
| Session.SitDown | src/main.py:123-134 | sitting down and staying gives one new session started at the first near sample. The alarm is then on at a given second exactly when the target time has elapsed since that sample |
| Session.AlarmPersists | src/main.py:131-134 | once the alarm is on it stays on while the person remains seated, time does not go backwards and no reset is accepted; a reset accepted at the later second turns it off |
| Session.RunSplit | src/main.py:115-157 | running a sequence of iterations is running any prefix of it and then the rest |
| Session.StayAway | src/main.py:151-157 | while nobody is seated each iteration adds one tick of away time and nothing else changes |
| Session.ResetRestartsCountdown | src/main.py:71-74 | a reset followed by a near reading on one iteration, with the reset's second and the state machine's second as separate inputs: already seated, the countdown restarts from the reset's second (the full target when both seconds are equal) and the session count is kept; arriving, the session starts at the state machine's second and counts once |
| Views.Pad2 | src/main.py:104 | two-digit zero padding gives digits only, at least two of them, reading back as the number; exactly two below 100 |
| Views.CountdownText | src/main.py:102-104 | the `MM:SS` timer text; stated by CountdownTextReadsBack |
| Views.CountdownTextReadsBack | src/main.py:102-105 | the `MM:SS` timer reads back as whole minutes and seconds 0..59 that add up to the remaining time |
| Views.BarWidth | src/main.py:108-110 | the bar width is the whole part of 100 * max(0, remaining / target): never negative, and at most 100 whenever the remaining time is at most the target |
| Views.BarWidthMonotone | src/main.py:108-110 | the bar is never wider for less remaining time |
| Views.FlashPhase | src/main.py:137 | the alarm's flash phase is always 0 on the whole-second clock, so the alarm is always drawn inverted |
| Views.SelectView | src/main.py:123-164 | the screen drawn for a state; stated by ViewChoice and ViewShows |
| Views.ViewChoice | src/main.py:134-164 | the alarm is shown exactly when sitting with no time remaining, even with the dashboard on. Otherwise the dashboard is shown exactly when it is toggled on. Otherwise it is the countdown when sitting and the away screen when not |
| Views.ViewShows | src/main.py:134-164 | the dashboard shows the away time and reads back the session count. The countdown's remaining time is positive and its timer reads back as it. The bar is at most full once the session has begun. The away screen shows the away time. The alarm is drawn inverted |
| Monitor.SmartMonitor.constructor | src/main.py:7-35 | starts with five 500 cm readings, no sessions, no away time, not sitting, the dashboard off and both last-press times 0 |
| Monitor.SmartMonitor.FilterStep | src/main.py:37-50 | the history stays the five-slot window of all readings so far. It becomes the previous last four followed by the new reading, and the result is their mean. Nothing else changes |
| Monitor.SmartMonitor.HandleInputs | src/main.py:60-74 | a debounced key1 press flips the dashboard flag and records its time. A debounced key0 press restarts the session timer and records its time. Sitting flag, session count and away time are untouched |
| Monitor.SmartMonitor.Tick | src/main.py:119-164 | the session fields take the state machine's next state, and the screen returned is the one chosen for that state |
| Monitor.SmartMonitor.Iteration | src/main.py:115-167 | keys first, then the filter, then the state machine; a toggle or reset in an iteration shows in the same frame |
| Monitor.FortyCentimetreScenario | src/main.py:119-134 | from power-on, 101 iterations ten to a second with a raw reading of 40 cm: away for the first four iterations (the filtered distance is 408, 316, 224, then 132 cm), seated from the fifth with one session started at second 0, four ticks of away time, the alarm on at second 10 and not at second 9 |

## Left out

- Hardware: pin set-up, the trigger pulse and its microsecond sleeps, and the echo
  timing itself are left out. The echo result is an input: a pulse width or a read
  error.
- The 0.1 s sleep at the end of each iteration is left out; each iteration is one call.
- The endless `while True` loop and the module-level start-up are left out. A caller
  runs `Iteration` once per pass, and `Session.Run` composes many state-machine steps.
- Drawing is left out: the display driver, fill/text/rect/line calls, the cup icon and
  pixel coordinates. The model keeps which screen is drawn, the numbers on it and the
  text built from them (the timer, the formatted away time, "Sits: N", "Total: ...").
  The fixed labels "DASHBOARD", "Away Time:", "FOCUS TIME", "STAND UP" and "AWAY" are
  not kept.
- Floating point is not modelled. Distances, the mean and the bar width use exact
  arithmetic, so rounding in `d * 0.0343 / 2` and in `100 * (remaining / TARGET_TIME)`
  is not captured.
- Away time is whole tenths. On the board (a Raspberry Pi Pico, src/main.py:4-17) the
  float `total_away_time += 0.1` (src/main.py:157) is single precision. Its sum drifts
  from the exact tenths in either direction, and the error grows with the away time:
  from 3 s of away time on (30 ticks sum to just under 3) the displayed second can already be one less, and hours of away time can show a different minute. From about 2^21 s
  on, adding `0.1` no longer changes the sum, so the away time stops increasing. None
  of this is captured; the model's away time is exact.
- The wrap-around of the millisecond tick counter and its `ticks_diff` is not modelled.
  The difference is plain integer subtraction.
- The host-side serial logger (`src/logger.py`) is not part of this model. It only
  reads serial lines and appends them to a CSV file.
- The start-up banner print is not modelled.
