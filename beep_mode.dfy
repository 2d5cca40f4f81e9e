/** The beep-mode state of src/buzzer_lib.c as a value, and what each entry point of the library
    and each statement of the thread function beep_mode does to it. The class in module BuzzerLib
    is specified by these functions; module Traces composes them into sequences of calls. */
module BeepMode {
  import opened Tone

  /** The module statics of the library (BUZZER_PIN, beep_mode_latch, beep_mode_half_period,
      beep_mode_state_a, beep_mode_state_b) together with records the C code does not keep:
      the frequencies passed to softToneWrite so far, the number of alternation threads created
      with pthread_create, the number of those threads that have returned, and where the others
      are in their loop: `pendingA` threads have passed the latch test and are about to write
      state_a (line 117), `pendingB` threads have written it and are in the first delay, about to
      write state_b (lines 118-119). The remaining live threads are at the latch test. */
  datatype Machine = Machine(
    pin: int32,
    latch: int8,
    halfPeriod: int32,
    stateA: uint8,
    stateB: uint8,
    log: seq<int>,
    spawns: nat,
    exited: nat,
    pendingA: nat,
    pendingB: nat)

  /** The statics as the program loads them: BUZZER_PIN = 1, everything else zero. */
  const Initial: Machine := Machine(1, ZERO_LATCH, 0, 0, 0, [], 0, 0, 0, 0)

  /** Number of alternation threads still running their loop. */
  function Live(m: Machine): int
  {
    m.spawns - m.exited
  }

  /** Number of alternation threads about to test `while (beep_mode_latch)`. */
  function AtTest(m: Machine): int
  {
    Live(m) - m.pendingA - m.pendingB
  }

  /** No running thread is in the middle of an iteration: a call lands between iterations. */
  predicate BetweenIterations(m: Machine)
  {
    m.pendingA == 0 && m.pendingB == 0
  }

  /** What holds of every reachable state: the latch holds one of its two values, every thread
      counted mid-iteration is a live one, and while the latch is set some thread is running. */
  ghost predicate Consistent(m: Machine)
  {
    (m.latch == ZERO_LATCH || m.latch == ON_LATCH) &&
    m.exited + m.pendingA + m.pendingB <= m.spawns &&
    (m.latch == ON_LATCH ==> Live(m) > 0)
  }

  /** The one-thread invariant the latch is meant to keep: it is set exactly when one thread
      runs. */
  ghost predicate Settled(m: Machine)
  {
    Consistent(m) && Live(m) == (if m.latch == ON_LATCH then 1 else 0)
  }

  /** turn_off_beeper: clear the latch, then write silence. */
  function AfterTurnOff(m: Machine): (r: Machine)
    ensures Consistent(m) ==> Consistent(r)
  {
    m.(latch := ZERO_LATCH, log := m.log + [STATE_MIN])
  }

  /** setup_buzzer_lib(pin): choose DEFAULT_PIN for a negative pin, then turn the beeper off. */
  function AfterSetup(m: Machine, pin: int32): (r: Machine)
    ensures Consistent(m) ==> Consistent(r)
  {
    AfterTurnOff(m.(pin := if pin < 0 then DEFAULT_PIN else pin))
  }

  /** set_buzzer_state(level): one tone command. */
  function AfterSetState(m: Machine, level: int32): (r: Machine)
    ensures Consistent(m) ==> Consistent(r)
  {
    m.(log := m.log + [Frequency(level)])
  }

  /** set_beep_mode(a, b, halfPeriod): store the three parameters; if the latch is clear, set it
      and create one alternation thread. */
  function AfterSetBeepMode(m: Machine, a: uint8, b: uint8, halfPeriod: int32): (r: Machine)
    ensures Consistent(m) ==> Consistent(r) && r.latch == ON_LATCH
  {
    var stored := m.(halfPeriod := halfPeriod, stateA := a, stateB := b);
    if stored.latch == ZERO_LATCH then
      stored.(latch := ON_LATCH, spawns := stored.spawns + 1)
    else
      stored
  }

  /** A thread evaluates `while (beep_mode_latch)`: with the latch set it enters the body, with
      the latch clear it returns. */
  function AfterLoopTest(m: Machine): (r: Machine)
    requires AtTest(m) > 0
    ensures Consistent(m) ==> Consistent(r)
  {
    if m.latch != ZERO_LATCH then m.(pendingA := m.pendingA + 1) else m.(exited := m.exited + 1)
  }

  /** A thread in the body runs set_buzzer_state(beep_mode_state_a), reading the level as it is
      now, and enters the first delay. */
  function AfterWriteA(m: Machine): (r: Machine)
    requires m.pendingA > 0
    ensures Consistent(m) ==> Consistent(r)
  {
    m.(log := m.log + [Frequency(m.stateA)], pendingA := m.pendingA - 1, pendingB := m.pendingB + 1)
  }

  /** A thread in the first delay runs set_buzzer_state(beep_mode_state_b), reading the level as
      it is now, then sleeps the second delay and goes back to the latch test. The latch is not
      looked at in between. */
  function AfterWriteB(m: Machine): (r: Machine)
    requires m.pendingB > 0
    ensures Consistent(m) ==> Consistent(r)
  {
    m.(log := m.log + [Frequency(m.stateB)], pendingB := m.pendingB - 1)
  }

  /** One whole pass of a thread through its loop with no other call in between: the latch test,
      then, if it passed, both writes (the delays take no modelled time). */
  function AfterCheck(m: Machine): (r: Machine)
    requires AtTest(m) > 0
    ensures Consistent(m) ==> Consistent(r)
    ensures m.latch != ZERO_LATCH ==> r == m.(log := m.log + [Frequency(m.stateA), Frequency(m.stateB)])
    ensures m.latch == ZERO_LATCH ==> r == m.(exited := m.exited + 1) && Live(r) == Live(m) - 1
  {
    var tested := AfterLoopTest(m);
    if m.latch != ZERO_LATCH then AfterWriteB(AfterWriteA(tested)) else tested
  }

  /** The frequencies of `n` loop iterations of beep_mode with tones `fa` and `fb`. */
  function Pattern(fa: int, fb: int, n: nat): (r: seq<int>)
    ensures |r| == 2 * n
    ensures forall i :: 0 <= i < |r| ==> r[i] == if i % 2 == 0 then fa else fb
  {
    if n == 0 then [] else Pattern(fa, fb, n - 1) + [fa, fb]
  }
}
