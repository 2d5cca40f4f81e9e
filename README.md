# buzzer_lib in Dafny

A model of `src/buzzer_lib.c`, a small library that drives a piezo buzzer on one GPIO pin
through wiringPi's software tone generator. It has four entry points: `setup_buzzer_lib`
selects the pin and silences the buzzer; `set_buzzer_state` maps an intensity level to one
tone command; `set_beep_mode` starts (or retunes) an intermittent two-level pattern played by a
detached background thread; `turn_off_beeper` stops the pattern and silences the buzzer. The
thread function `beep_mode` loops while the latch `beep_mode_latch` is set.

Files and modules:

- `tone.dfy`, module `Tone`: the constants of `include/buzzer_lib.h`, the C integer types
  (`int32`, `int8` for the `char` latch, `uint8` for the `unsigned char` levels), the
  level-to-frequency mapping `Frequency` and its inverse on the linear range `LevelFor`.
- `beep_mode.dfy`, module `BeepMode`: the library's statics as a value `Machine`, with
  records the C code does not keep: the frequencies passed to `softToneWrite` (`log`), the
  threads created (`spawns`), the threads that have returned (`exited`), and how many threads
  are about to write `state_a` (`pendingA`) or are in the first delay about to write
  `state_b` (`pendingB`). It holds one pure transition per entry point and one per statement
  of the thread's loop (the latch test, the `state_a` write, the `state_b` write). It also
  holds the state invariant `Consistent`, the one-thread invariant `Settled`, and `Pattern`,
  the output of n loop iterations.
- `buzzer_lib.dfy`, module `BuzzerLib`: class `Buzzer`, whose fields are the statics
  `BUZZER_PIN`, `beep_mode_latch`, `beep_mode_half_period`, `beep_mode_state_a` and
  `beep_mode_state_b`, plus the records as ghost fields. Each entry point is an imperative
  method with the C code's branches. Its `ensures` equates the new state (`Model()`) with the
  matching transition of `BeepMode` applied to the old state. `BeepModeStep` is one test of
  the loop condition of `beep_mode` by a running thread, followed by the loop body. `BeepMode`
  is the thread function itself, run for at most `fuel` tests of that condition.
- `traces.dfy`, module `Traces`: sequences of calls that interleave the application's calls
  with the statements of the threads, so a call can land in either delay of an iteration. It
  holds the lemmas about start-once, retuning, stopping and the number of running threads.

Behaviour of the code that the model makes explicit:

- The latch is a plain `char` that `set_beep_mode` tests and sets with no synchronisation
  (src/buzzer_lib.c:29, 96-97). Each call in the model is one indivisible step, so the model
  says nothing about two `set_beep_mode` calls racing.
- At most one running thread is not guaranteed. A stop followed by a start before the old
  thread re-tests the latch leaves two threads running, and both emit the pattern.
  `Traces.StopStartRaceLeavesTwoThreads` exhibits this. What the code does keep is stated by
  `Traces.SettledWithoutStop`: from a state where the latch is set exactly when one thread
  runs, no sequence of calls without a stop breaks that. It is also stated by
  `Traces.StopThenCheckSettles`: a stop between iterations followed by the thread's exit
  restores it.
- `turn_off_beeper` does not guarantee silence. The thread tests the latch only at
  src/buzzer_lib.c:116, and a stop can land in two windows after that test. A stop in the
  delay at :118 is followed by the thread's `state_b` write at :119
  (`Traces.StopInDelayEndsOnTone`). A stop between the test at :116 and the write at :117
  is followed by both writes (`Traces.StopAfterTestWritesBoth`). Either way the last tone
  written is the `state_b` tone. When `state_b` is above 0, the buzzer keeps sounding after
  the thread returns; when it is 0 (an on/off beep), that late write is itself silence.
  `Traces.PatternStoppedInDelay` gives the 20/80 trace 600, 0, 900.
- The doc comment at src/buzzer_lib.c:64 speaks of levels between 0 and 100. The levels of
  `set_beep_mode` are `unsigned char`, so 0-255, and `set_buzzer_state` clamps 101-255 to
  1000 Hz.
- The doc comment at src/buzzer_lib.c:39 announces -1 for an error. `setup_buzzer_lib`, like
  `set_buzzer_state` and `set_beep_mode`, always returns `EXIT_SUCCESS`, and the hardware calls return
  nothing it looks at.

## Model

| member | source | states |
|---|---|---|
| `Tone.Frequency` | src/buzzer_lib.c:68-80 | the tone is 0 exactly for levels at or below STATE_MIN (no baseline added); every other tone lies in 505..1000; every level at or above 100 gives 1000 (the clamp); levels 1..100 give level*5+500 |
| `Tone.LevelFor` | src/buzzer_lib.c:76-77 | inverse of the linear branch: a returned level is in 1..100 and maps to the given tone; None means no level in 1..100 maps to it |
| `Tone.ToneRoundTrip` | src/buzzer_lib.c:71-78 | each level in 1..100 is recovered from its tone, so distinct levels give distinct tones; the silence of a level at or below 0 belongs to no level |
| `Tone.FrequencyMonotone` | src/buzzer_lib.c:71-78 | a higher level never gives a lower tone, across both clamps |
| `BeepMode.AfterTurnOff` | src/buzzer_lib.c:130-134 | turn_off_beeper keeps the state invariant (latch value, thread counts) |
| `BeepMode.AfterSetup` | src/buzzer_lib.c:41-60 | setup_buzzer_lib keeps the state invariant |
| `BeepMode.AfterSetState` | src/buzzer_lib.c:68-80 | set_buzzer_state keeps the state invariant |
| `BeepMode.AfterSetBeepMode` | src/buzzer_lib.c:86-106 | set_beep_mode keeps the state invariant, and leaves the latch at ON_LATCH |
| `BeepMode.AfterLoopTest` | src/buzzer_lib.c:116 | a thread's latch test (entering the body, or returning on a clear latch) keeps the state invariant |
| `BeepMode.AfterWriteA` | src/buzzer_lib.c:117-118 | the `state_a` write, with the level read at that moment, keeps the state invariant |
| `BeepMode.AfterWriteB` | src/buzzer_lib.c:119-120 | the `state_b` write, made without looking at the latch, keeps the state invariant |
| `BeepMode.AfterCheck` | src/buzzer_lib.c:116-121 | one whole pass with nothing in between keeps the state invariant; with the latch set it appends the tones of the current state_a and state_b and leaves the thread at the test again; with it clear the thread returns and nothing is written |
| `BeepMode.Pattern` | src/buzzer_lib.c:116-121 | n iterations give 2n tones, the first level's tone at even positions and the second's at odd ones |
| `BuzzerLib.Buzzer.constructor` | src/buzzer_lib.c:23-32 | the statics start as BUZZER_PIN = 1, latch clear, period and both levels 0, nothing written, no thread |
| `BuzzerLib.Buzzer.SoftToneWrite` | src/buzzer_lib.c:73-77 | a softToneWrite call appends its frequency to the output log and changes nothing else |
| `BuzzerLib.Buzzer.SetupBuzzerLib` | src/buzzer_lib.c:41-60 | the pin is DEFAULT_PIN for a negative argument and the argument otherwise; then the beeper is turned off; returns 0 |
| `BuzzerLib.Buzzer.SetBuzzerState` | src/buzzer_lib.c:68-80 | the three branches append exactly Frequency(state) to the log and change nothing else; returns 0 |
| `BuzzerLib.Buzzer.SetBeepMode` | src/buzzer_lib.c:86-106 | the three parameters are overwritten; a thread is created and the latch set only when the latch was clear; returns 0 |
| `BuzzerLib.Buzzer.BeepModeStep` | src/buzzer_lib.c:116-121 | returns whether the latch was set; if so appends the tones of the current state_a and then the current state_b, otherwise the thread returns |
| `BuzzerLib.Buzzer.BeepMode` | src/buzzer_lib.c:113-124 | the thread function leaves at its first test exactly when the latch is clear; otherwise, within `fuel` tests, it emits Pattern of the two tones `fuel` times and changes nothing else |
| `BuzzerLib.Buzzer.TurnOffBeeper` | src/buzzer_lib.c:130-134 | the latch becomes ZERO_LATCH and exactly one 0 is appended; the rest is unchanged |
| `Traces.RunKeepsConsistent` | src/buzzer_lib.c:41-134 | every sequence of calls and thread statements keeps the state invariant: the latch is 0 or 1, every thread mid-iteration is a live one, and while the latch is set some thread runs (given that thread creation succeeds) |
| `Traces.RunIteration` | src/buzzer_lib.c:116-121 | the three statements of one iteration, run with nothing in between, have the effect of the whole pass made by `BuzzerLib.Buzzer.BeepModeStep` |
| `Traces.StartsSpawnOnce` | src/buzzer_lib.c:96-103 | with no stop in between, any number of set_beep_mode calls create exactly one thread when the latch was clear and none when it was set; afterwards the latch is ON_LATCH |
| `Traces.SettledWithoutStop` | src/buzzer_lib.c:96-121 | without a stop, "latch set exactly when one thread runs" is preserved, so at most one thread runs |
| `Traces.StopThenCheckSettles` | src/buzzer_lib.c:116-134 | a stop that lands between iterations, followed by the running thread's next latch test, writes only stop's 0 and leaves no thread running |
| `Traces.StopInDelayEndsOnTone` | src/buzzer_lib.c:116-134 | a stop that lands in the delay at :118 is followed by the thread's state_b write: the log ends with 0 and then Frequency(state_b), non-zero exactly when state_b is above 0, and the thread then returns |
| `Traces.StopAfterTestWritesBoth` | src/buzzer_lib.c:116-134 | a stop that lands between the latch test at :116 and the write at :117 is followed by both writes: the log ends 0, Frequency(state_a), Frequency(state_b), non-zero last exactly when state_b is above 0, and the thread then returns |
| `Traces.PatternStoppedInDelay` | src/buzzer_lib.c:86-134 | from idle, a 20/80 pattern stopped during the first delay writes 600, 0, 900 and leaves no thread running, with a non-zero last tone |
| `Traces.StopStartRaceLeavesTwoThreads` | src/buzzer_lib.c:96-134 | stop then start before the old thread re-tests the latch leaves two threads running, and their next iterations write the new pattern twice |
| `Traces.StepsKeepSettled` | src/buzzer_lib.c:116-121 | uninterrupted loop iterations keep "latch set exactly when one thread runs" and leave the number of running threads unchanged |
| `Traces.StepsEmitPattern` | src/buzzer_lib.c:116-121 | with the latch set, n uninterrupted iterations append Pattern of the current levels' tones and change nothing else |
| `Traces.RetuneTakesEffectNextIteration` | src/buzzer_lib.c:92-121 | set_beep_mode while running creates no thread, and the very next iteration writes the new levels' tones |
| `Traces.RetuneInDelayTakesEffectAtOnce` | src/buzzer_lib.c:92-94 | a set_beep_mode during the first delay creates no thread and already changes the state_b tone of the iteration under way |
| `Traces.StartOverwritesParameters` | src/buzzer_lib.c:92-103 | set_beep_mode stores all three arguments whatever the latch was; it creates a thread exactly when the latch was clear; the log and pin are unchanged |
| `Traces.TurnOffIdempotent` | src/buzzer_lib.c:130-134 | turn_off_beeper clears the latch, writes one 0 and leaves the parameters and threads alone; a second call only writes another 0 |
| `Traces.SetStateWritesOneTone` | src/buzzer_lib.c:68-80 | set_buzzer_state appends exactly one tone, Frequency(level), and changes nothing else |
| `Traces.SetupSelectsPin` | src/buzzer_lib.c:44-54 | setup_buzzer_lib stores DEFAULT_PIN for a negative pin and the pin otherwise, clears the latch and writes one 0 |
| `Traces.DocumentedTones` | src/buzzer_lib.c:44-79 | setup_buzzer_lib(-1) on a library whose pin was 7 falls back to pin 1; levels 0, 50 and 150 then write 0, 750 and 1000 after setup's 0 |
| `Traces.PatternThenStop` | src/buzzer_lib.c:86-134 | from idle, a 20/80 pattern run for one iteration and then stopped between iterations writes 600, 900, 0; the thread then returns, leaving none running |

## Left out

- The wiringPi calls `wiringPiSetup`, `softToneCreate` and `piHiPri` act on hardware and
  scheduling only and are not modelled. `softToneWrite` is modelled as appending its
  frequency to a log (the pin it writes to is the current pin field). `delay` takes no
  modelled time.
- Threads: `pthread_create` of a detached thread is a counter (`spawns`). A thread's return
  is a second counter (`exited`). The scheduler is the order of calls in a `Traces.Run`
  sequence: one whole entry-point call, or one statement of a thread's loop (the latch test,
  the `state_a` write, the `state_b` write) at a time. Threads are counted by where they
  are in the loop, not told apart. A tear between the latch test and the latch write in
  `set_beep_mode` is not modelled, and neither is a torn read of the shared parameters.
- BeepMode.AfterSetBeepMode: the code ignores the result of `pthread_create`
  (src/buzzer_lib.c:101), and the model assumes the thread is always created. When creation
  fails, the code leaves the latch at ON_LATCH with no thread running, and later
  `set_beep_mode` calls start nothing until a stop. `Consistent` ("while the latch is set
  some thread runs") and the lemmas built on it hold only when creation succeeds.
- Traces.StopThenCheckSettles: covers only a stop that lands between iterations. A stop
  later in an iteration is followed by the rest of its writes, as
  `Traces.StopInDelayEndsOnTone` and `Traces.StopAfterTestWritesBoth` state.
- BuzzerLib.Buzzer.BeepMode: bounded by `fuel` tests of the loop condition. Run alone on one
  thread, the latch never changes inside the loop, so the C loop only ends when another
  caller clears the latch.
- Timing: the half period is stored, but sleeping, and so termination latency, is not
  modelled.
- `baseline_freq` is a `float` holding 500. The model uses the integer 500, which is exact
  for every sum the code forms (all are below 2^24).
- `BASE_FREQ` in `include/buzzer_lib.h` is never used by the code; its value equals
  `baseline_freq`.
