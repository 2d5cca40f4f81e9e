/** The entry points of src/buzzer_lib.c as methods of one object holding the library's statics.
    Each method is specified by the matching transition of module BeepMode. */
module BuzzerLib {
  import opened Tone
  import opened BeepMode

  class Buzzer {
    var pin: int32        // BUZZER_PIN
    var latch: int8       // beep_mode_latch
    var halfPeriod: int32 // beep_mode_half_period
    var stateA: uint8     // beep_mode_state_a
    var stateB: uint8     // beep_mode_state_b

    /** Frequencies passed to softToneWrite, oldest first. */
    ghost var log: seq<int>
    /** Alternation threads created with pthread_create. */
    ghost var spawns: nat
    /** Alternation threads that have left their loop and returned. */
    ghost var exited: nat
    /** Threads about to write state_a, and threads in the first delay about to write state_b. */
    ghost var pendingA: nat
    ghost var pendingB: nat

    ghost function Model(): Machine
      reads this
    {
      Machine(pin, latch, halfPeriod, stateA, stateB, log, spawns, exited, pendingA, pendingB)
    }

    ghost predicate Valid()
      reads this
    {
      Consistent(Model())
    }

    /** The statics as their initialisers leave them, before any call. */
    constructor ()
      ensures Valid() && Model() == Initial
    {
      pin, latch, halfPeriod, stateA, stateB := 1, ZERO_LATCH, 0, 0, 0;
      log, spawns, exited, pendingA, pendingB := [], 0, 0, 0, 0;
    }

    /** softToneWrite(BUZZER_PIN, freq): the hardware call, recorded in the log. */
    method SoftToneWrite(freq: int)
      modifies this`log
      ensures log == old(log) + [freq]
    {
      log := log + [freq];
    }

    method SetupBuzzerLib(p: int32) returns (rc: int)
      requires Valid()
      modifies this
      ensures Valid()
      ensures Model() == AfterSetup(old(Model()), p)
      ensures rc == EXIT_SUCCESS
    {
      if p < 0 {
        pin := DEFAULT_PIN;
      } else {
        pin := p;
      }
      // wiringPiSetup and softToneCreate(BUZZER_PIN) act on the hardware only.
      TurnOffBeeper();
      // piHiPri(99) changes the scheduling priority only.
      rc := EXIT_SUCCESS;
    }

    method SetBuzzerState(state: int32) returns (rc: int)
      requires Valid()
      modifies this`log
      ensures Valid()
      ensures Model() == AfterSetState(old(Model()), state)
      ensures rc == EXIT_SUCCESS
    {
      var level := state;
      if level > STATE_MAX {
        level := STATE_MAX;
        SoftToneWrite(level * 5 + BASELINE_FREQ);
      } else if level <= STATE_MIN {
        SoftToneWrite(STATE_MIN);
      } else {
        SoftToneWrite(level * 5 + BASELINE_FREQ);
      }
      rc := EXIT_SUCCESS;
    }

    method SetBeepMode(a: uint8, b: uint8, half: int32) returns (rc: int)
      requires Valid()
      modifies this
      ensures Valid()
      ensures Model() == AfterSetBeepMode(old(Model()), a, b, half)
      ensures rc == EXIT_SUCCESS
    {
      halfPeriod := half;
      stateA := a;
      stateB := b;
      if latch == ZERO_LATCH {
        latch := ON_LATCH;
        // pthread_create of a detached thread running beep_mode.
        spawns := spawns + 1;
      }
      rc := EXIT_SUCCESS;
    }

    /** One test of `while (beep_mode_latch)` in beep_mode by a thread at that test, and the loop
        body when it passes: returns whether the thread is still in its loop. */
    method BeepModeStep() returns (running: bool)
      requires Valid() && exited + pendingA + pendingB < spawns
      modifies this`log, this`exited, this`pendingA, this`pendingB
      ensures Valid()
      ensures running == (old(latch) != ZERO_LATCH)
      ensures Model() == AfterCheck(old(Model()))
    {
      running := latch != ZERO_LATCH;
      if running {
        pendingA := pendingA + 1;
        var _ := SetBuzzerState(stateA);
        pendingA, pendingB := pendingA - 1, pendingB + 1;
        // delay(beep_mode_half_period)
        var _ := SetBuzzerState(stateB);
        pendingB := pendingB - 1;
        // delay(beep_mode_half_period)
      } else {
        exited := exited + 1;
      }
    }

    /** The thread function beep_mode, run for at most `fuel` tests of its loop condition.
        Returns whether the thread left its loop within that bound. */
    method BeepMode(fuel: nat) returns (returned: bool)
      requires Valid() && exited + pendingA + pendingB < spawns
      modifies this`log, this`exited, this`pendingA, this`pendingB
      ensures Valid()
      ensures returned == (fuel > 0 && old(latch) == ZERO_LATCH)
      ensures returned ==> Model() == old(Model()).(exited := old(exited) + 1)
      ensures !returned ==>
        Model() == old(Model()).(log := old(log) + Pattern(Frequency(old(stateA)), Frequency(old(stateB)), fuel))
    {
      ghost var fa, fb := Frequency(stateA), Frequency(stateB);
      var k: nat := 0;
      returned := false;
      while k < fuel && !returned
        invariant k <= fuel && Valid()
        invariant returned ==> k == 1 && old(latch) == ZERO_LATCH && Model() == old(Model()).(exited := old(exited) + 1)
        invariant !returned ==> (k > 0 ==> old(latch) != ZERO_LATCH) && exited + pendingA + pendingB < spawns
        invariant !returned ==> Model() == old(Model()).(log := old(log) + Pattern(fa, fb, k))
      {
        var running := BeepModeStep();
        returned := !running;
        k := k + 1;
      }
    }

    method TurnOffBeeper()
      requires Valid()
      modifies this`latch, this`log
      ensures Valid()
      ensures Model() == AfterTurnOff(old(Model()))
    {
      latch := ZERO_LATCH;
      SoftToneWrite(STATE_MIN);
    }
  }
}
