/** Sequences of calls into the library, interleaving the caller's calls with the statements of
    the alternation threads: the latch test and the two writes of each loop iteration are
    separate steps, so a call can land in either delay. */
module Traces {
  import opened Tone
  import opened BeepMode

  /** One call by the application, or one statement of some running thread. */
  datatype Call =
    | Setup(pin: int32)
    | SetState(level: int32)
    | StartBeep(a: uint8, b: uint8, halfPeriod: int32)
    | TurnOff
    | LoopTest
    | WriteA
    | WriteB

  /** The effect of one call. A thread statement that no thread is at does nothing. */
  function Apply(m: Machine, c: Call): Machine
  {
    match c
    case Setup(pin) => AfterSetup(m, pin)
    case SetState(level) => AfterSetState(m, level)
    case StartBeep(a, b, p) => AfterSetBeepMode(m, a, b, p)
    case TurnOff => AfterTurnOff(m)
    case LoopTest => if AtTest(m) > 0 then AfterLoopTest(m) else m
    case WriteA => if m.pendingA > 0 then AfterWriteA(m) else m
    case WriteB => if m.pendingB > 0 then AfterWriteB(m) else m
  }

  /** The effect of a sequence of calls, first call first. */
  function Run(m: Machine, calls: seq<Call>): Machine
    decreases |calls|
  {
    if calls == [] then m else Run(Apply(m, calls[0]), calls[1..])
  }

  /** One loop iteration of a thread, statement by statement. */
  const Iteration: seq<Call> := [LoopTest, WriteA, WriteB]

  /** `n` loop iterations in a row, with no call by the application in between. */
  function Steps(n: nat): (r: seq<Call>)
    ensures |r| == 3 * n && forall i :: 0 <= i < |r| ==> r[i] in Iteration
  {
    if n == 0 then [] else Steps(n - 1) + Iteration
  }

  /** No call in the sequence clears the latch (neither turn_off_beeper nor setup_buzzer_lib). */
  ghost predicate NoStop(calls: seq<Call>)
  {
    forall i :: 0 <= i < |calls| ==> !calls[i].TurnOff? && !calls[i].Setup?
  }

  /** Some call in the sequence is set_beep_mode. */
  ghost predicate HasStart(calls: seq<Call>)
  {
    exists i :: 0 <= i < |calls| && calls[i].StartBeep?
  }

  lemma RunCons(m: Machine, c: Call, rest: seq<Call>)
    ensures Run(m, [c] + rest) == Run(Apply(m, c), rest)
  {
    assert ([c] + rest)[1..] == rest;
  }

  lemma RunAppend(m: Machine, xs: seq<Call>, ys: seq<Call>)
    ensures Run(m, xs + ys) == Run(Run(m, xs), ys)
    decreases |xs|
  {
    if xs != [] {
      assert (xs + ys)[0] == xs[0] && (xs + ys)[1..] == xs[1..] + ys;
      calc {
        Run(m, xs + ys);
        Run(Apply(m, xs[0]), xs[1..] + ys);
        { RunAppend(Apply(m, xs[0]), xs[1..], ys); }
        Run(Run(Apply(m, xs[0]), xs[1..]), ys);
      }
    } else {
      assert xs + ys == ys;
    }
  }

  lemma ApplyKeepsConsistent(m: Machine, c: Call)
    requires Consistent(m)
    ensures Consistent(Apply(m, c))
  {
  }

  /** Every call and every thread statement keeps the state invariant, so every state the library
      can reach from its initial statics is Consistent. */
  lemma {:induction false} RunKeepsConsistent(m: Machine, calls: seq<Call>)
    requires Consistent(m)
    ensures Consistent(Run(m, calls))
    decreases |calls|
  {
    if calls != [] {
      ApplyKeepsConsistent(m, calls[0]);
      RunKeepsConsistent(Apply(m, calls[0]), calls[1..]);
    }
  }

  /** A loop iteration run statement by statement, by a thread at the latch test with nothing
      else in between, is the whole pass AfterCheck that BuzzerLib.Buzzer.BeepModeStep makes. */
  lemma RunIteration(m: Machine)
    requires AtTest(m) > 0 && m.latch != ZERO_LATCH
    ensures Run(m, Iteration) == AfterCheck(m)
  {
    var t := AfterLoopTest(m);
    RunCons(m, LoopTest, [WriteA, WriteB]);
    RunCons(t, WriteA, [WriteB]);
    RunCons(AfterWriteA(t), WriteB, []);
  }

  /** Start-once: however many set_beep_mode calls (and tone commands and thread statements)
      come without an intervening stop, at most one thread is created, and exactly one when the
      latch was clear and some start occurred; after any start the latch is set. */
  lemma {:induction false} StartsSpawnOnce(m: Machine, calls: seq<Call>)
    requires Consistent(m) && NoStop(calls)
    ensures Run(m, calls).spawns == m.spawns + (if m.latch == ZERO_LATCH && HasStart(calls) then 1 else 0)
    ensures HasStart(calls) ==> Run(m, calls).latch == ON_LATCH
    ensures !HasStart(calls) ==> Run(m, calls).latch == m.latch
    decreases |calls|
  {
    if calls != [] {
      var m1, rest := Apply(m, calls[0]), calls[1..];
      ApplyKeepsConsistent(m, calls[0]);
      assert NoStop(rest) by {
        forall i | 0 <= i < |rest| ensures !rest[i].TurnOff? && !rest[i].Setup? {
          assert rest[i] == calls[i + 1];
        }
      }
      StartsSpawnOnce(m1, rest);
      assert HasStart(calls) <==> calls[0].StartBeep? || HasStart(rest) by {
        if HasStart(rest) {
          var i :| 0 <= i < |rest| && rest[i].StartBeep?;
          assert calls[i + 1].StartBeep?;
        }
        if HasStart(calls) && !calls[0].StartBeep? {
          var i :| 0 <= i < |calls| && calls[i].StartBeep?;
          assert rest[i - 1].StartBeep?;
        }
      }
    }
  }

  /** The at-most-one-thread invariant holds over every sequence of calls without a stop:
      starting from a settled state, the latch stays set exactly when one thread runs. */
  lemma {:induction false} SettledWithoutStop(m: Machine, calls: seq<Call>)
    requires Settled(m) && NoStop(calls)
    ensures Settled(Run(m, calls)) && Live(Run(m, calls)) <= 1
    decreases |calls|
  {
    if calls != [] {
      var rest := calls[1..];
      assert NoStop(rest) by {
        forall i | 0 <= i < |rest| ensures !rest[i].TurnOff? && !rest[i].Setup? {
          assert rest[i] == calls[i + 1];
        }
      }
      SettledWithoutStop(Apply(m, calls[0]), rest);
    }
  }

  /** A stop that lands between two iterations, followed by the running thread's next latch
      test, settles the state again: the thread sees the cleared latch and returns without
      writing a tone. */
  lemma StopThenCheckSettles(m: Machine)
    requires Settled(m) && BetweenIterations(m)
    ensures Settled(Run(m, [TurnOff, LoopTest]))
    ensures Run(m, [TurnOff, LoopTest]).log == m.log + [STATE_MIN]
    ensures Live(Run(m, [TurnOff, LoopTest])) == 0
  {
    RunCons(m, TurnOff, [LoopTest]);
    RunCons(Apply(m, TurnOff), LoopTest, []);
  }

  /** A turn_off_beeper that lands in the delay between the two writes of an iteration is
      followed by the state_b write: the thread does not look at the latch before it, so the last
      tone written is the state_b tone, after stop's silence, and the buzzer ends sounding
      exactly when state_b is above 0. The thread returns only at its next latch test. */
  lemma StopInDelayEndsOnTone(m: Machine)
    requires Settled(m) && m.latch == ON_LATCH && m.pendingB == 1
    ensures var r := Run(m, [TurnOff, WriteB, LoopTest]);
      r.log == m.log + [STATE_MIN, Frequency(m.stateB)] &&
      (r.log[|r.log| - 1] != 0 <==> m.stateB > 0) &&
      r.latch == ZERO_LATCH && Live(r) == 0 && Settled(r)
  {
    var s := AfterTurnOff(m);
    var w := AfterWriteB(s);
    RunCons(m, TurnOff, [WriteB, LoopTest]);
    RunCons(s, WriteB, [LoopTest]);
    RunCons(w, LoopTest, []);
  }

  /** A turn_off_beeper that lands after a thread has passed the latch test but before its
      state_a write is followed by both writes of that iteration: the buzzer ends on the state_b
      tone, sounding exactly when state_b is above 0. */
  lemma StopAfterTestWritesBoth(m: Machine)
    requires Settled(m) && m.latch == ON_LATCH && BetweenIterations(m)
    ensures var r := Run(m, [LoopTest, TurnOff, WriteA, WriteB, LoopTest]);
      r.log == m.log + [STATE_MIN, Frequency(m.stateA), Frequency(m.stateB)] &&
      (r.log[|r.log| - 1] != 0 <==> m.stateB > 0) &&
      r.latch == ZERO_LATCH && Live(r) == 0 && Settled(r)
  {
    var t := AfterLoopTest(m);
    var s := AfterTurnOff(t);
    var w := AfterWriteA(s);
    RunCons(m, LoopTest, [TurnOff, WriteA, WriteB, LoopTest]);
    RunCons(t, TurnOff, [WriteA, WriteB, LoopTest]);
    RunCons(s, WriteA, [WriteB, LoopTest]);
    RunCons(w, WriteB, [LoopTest]);
    RunCons(AfterWriteB(w), LoopTest, []);
  }

  /** The 20/80 pattern stopped during the first delay of its first iteration: the tone for 80
      is written after stop's silence, so the buzzer goes on sounding 900 Hz once every thread
      has returned. */
  lemma PatternStoppedInDelay(m: Machine)
    requires Consistent(m) && m.latch == ZERO_LATCH && Live(m) == 0
    ensures var r := Run(m, [StartBeep(20, 80, 300), LoopTest, WriteA, TurnOff, WriteB, LoopTest]);
      r.log == m.log + [600, 0, 900] && r.latch == ZERO_LATCH && Live(r) == 0 &&
      r.log[|r.log| - 1] != 0
  {
    var s := AfterSetBeepMode(m, 20, 80, 300);
    var t := AfterLoopTest(s);
    var a := AfterWriteA(t);
    RunCons(m, StartBeep(20, 80, 300), [LoopTest, WriteA, TurnOff, WriteB, LoopTest]);
    RunCons(s, LoopTest, [WriteA, TurnOff, WriteB, LoopTest]);
    RunCons(t, WriteA, [TurnOff, WriteB, LoopTest]);
    StopInDelayEndsOnTone(a);
  }

  /** The latch is a plain variable tested only at the top of the loop: if the application
      stops and restarts a running pattern before the old thread tests the latch again, that
      thread keeps running beside the new one, and the next iteration of each writes the
      pattern, so the tones come twice. */
  lemma StopStartRaceLeavesTwoThreads(m: Machine, a: uint8, b: uint8, p: int32)
    requires Settled(m) && m.latch == ON_LATCH && BetweenIterations(m)
    ensures var r := Run(m, [TurnOff, StartBeep(a, b, p)]);
      r.latch == ON_LATCH && r.spawns == m.spawns + 1 && Live(r) == 2 && !Settled(r) &&
      Run(r, Iteration + Iteration).log == m.log + [STATE_MIN, Frequency(a), Frequency(b), Frequency(a), Frequency(b)] &&
      Live(Run(r, Iteration + Iteration)) == 2
  {
    var stopped := AfterTurnOff(m);
    var r := AfterSetBeepMode(stopped, a, b, p);
    RunCons(m, TurnOff, [StartBeep(a, b, p)]);
    RunCons(stopped, StartBeep(a, b, p), []);
    assert Run(m, [TurnOff, StartBeep(a, b, p)]) == r;
    RunAppend(r, Iteration, Iteration);
    RunIteration(r);
    RunIteration(AfterCheck(r));
  }

  /** With the latch set and every thread at the latch test, `n` iterations of the loop emit the
      tones of the current two levels alternately, and change nothing else. */
  lemma {:induction false} StepsEmitPattern(m: Machine, n: nat)
    requires Consistent(m) && m.latch != ZERO_LATCH && BetweenIterations(m)
    ensures Run(m, Steps(n)) == m.(log := m.log + Pattern(Frequency(m.stateA), Frequency(m.stateB), n))
    decreases n
  {
    var fa, fb := Frequency(m.stateA), Frequency(m.stateB);
    if n == 0 {
      assert m.log + Pattern(fa, fb, 0) == m.log;
    } else {
      RunAppend(m, Steps(n - 1), Iteration);
      StepsEmitPattern(m, n - 1);
      var before := Run(m, Steps(n - 1));
      RunIteration(before);
      assert m.log + Pattern(fa, fb, n - 1) + [fa, fb] == m.log + Pattern(fa, fb, n);
    }
  }

  /** Uninterrupted iterations keep the one-thread invariant: Steps contains no stop. */
  lemma StepsKeepSettled(m: Machine, n: nat)
    requires Settled(m)
    ensures Settled(Run(m, Steps(n))) && Live(Run(m, Steps(n))) == Live(m)
  {
    SettledWithoutStop(m, Steps(n));
    StartsSpawnOnce(m, Steps(n));
    assert !HasStart(Steps(n));
  }

  /** Changing the parameters while a thread runs takes effect on its very next iteration:
      set_beep_mode overwrites them and creates no new thread. */
  lemma RetuneTakesEffectNextIteration(m: Machine, a: uint8, b: uint8, p: int32)
    requires Consistent(m) && m.latch == ON_LATCH && BetweenIterations(m)
    ensures var r := Run(m, [StartBeep(a, b, p)] + Iteration);
      r.log == m.log + [Frequency(a), Frequency(b)] && r.spawns == m.spawns &&
      r.stateA == a && r.stateB == b && r.halfPeriod == p
  {
    RunCons(m, StartBeep(a, b, p), Iteration);
    RunIteration(Apply(m, StartBeep(a, b, p)));
  }

  /** The levels are read at each write, not once per iteration: a set_beep_mode that lands in
      the first delay already changes the state_b tone of the iteration under way. */
  lemma RetuneInDelayTakesEffectAtOnce(m: Machine, a: uint8, b: uint8, p: int32)
    requires Consistent(m) && m.latch == ON_LATCH && m.pendingB > 0
    ensures var r := Run(m, [StartBeep(a, b, p), WriteB]);
      r.log == m.log + [Frequency(b)] && r.spawns == m.spawns && r.pendingB == m.pendingB - 1
  {
    RunCons(m, StartBeep(a, b, p), [WriteB]);
    RunCons(Apply(m, StartBeep(a, b, p)), WriteB, []);
  }

  /** set_beep_mode overwrites all three parameters whether the latch was set or not, and
      creates a thread exactly when the latch was clear. */
  lemma StartOverwritesParameters(m: Machine, a: uint8, b: uint8, p: int32)
    ensures var r := AfterSetBeepMode(m, a, b, p);
      r.stateA == a && r.stateB == b && r.halfPeriod == p &&
      (r.spawns == m.spawns + 1 <==> m.latch == ZERO_LATCH) &&
      r.spawns <= m.spawns + 1 && r.log == m.log && r.pin == m.pin
  {
  }

  /** turn_off_beeper clears the latch and writes one silence, whatever the state, and leaves the
      pattern parameters alone; a second call changes nothing but writes one more silence. */
  lemma TurnOffIdempotent(m: Machine)
    ensures var r := AfterTurnOff(m);
      r.latch == ZERO_LATCH && r.log == m.log + [0] &&
      r.stateA == m.stateA && r.stateB == m.stateB && r.halfPeriod == m.halfPeriod &&
      r.spawns == m.spawns && r.exited == m.exited
    ensures AfterTurnOff(AfterTurnOff(m)) == AfterTurnOff(m).(log := AfterTurnOff(m).log + [0])
  {
  }

  /** set_buzzer_state writes exactly one tone, the one for its level, and changes nothing else
      (the log records the frequency only: every write goes to the current pin). */
  lemma SetStateWritesOneTone(m: Machine, level: int32)
    ensures var r := AfterSetState(m, level);
      |r.log| == |m.log| + 1 && r.log[..|m.log|] == m.log && r.log[|m.log|] == Frequency(level) &&
      r.(log := m.log) == m
  {
  }

  /** setup_buzzer_lib picks DEFAULT_PIN for a negative pin and the given pin otherwise, and
      leaves the latch clear after writing one silence. */
  lemma SetupSelectsPin(m: Machine, pin: int32)
    ensures var r := AfterSetup(m, pin);
      r.pin == (if pin < 0 then DEFAULT_PIN else pin) && r.latch == ZERO_LATCH &&
      r.log == m.log + [0] && r.spawns == m.spawns
  {
  }

  /** Direct tone commands after setup_buzzer_lib(-1) on a library whose pin was 7: the pin falls back to
      DEFAULT_PIN, and levels 0, 50 and 150 write 0, 50 * 5 + 500 and the clamped 100 * 5 + 500,
      after setup's own silence. */
  lemma DocumentedTones()
    ensures Run(Initial.(pin := 7), [Setup(-1), SetState(0), SetState(50), SetState(150)])
         == Initial.(pin := DEFAULT_PIN, log := [0, 0, 750, 1000])
  {
  }

  /** From an idle state, a 20/80 pattern that runs one iteration and is then stopped between
      iterations writes the tones for 20 and 80, then stop's silence; the thread sees the
      cleared latch and returns without writing anything more. */
  lemma PatternThenStop(m: Machine)
    requires Consistent(m) && m.latch == ZERO_LATCH && Live(m) == 0
    ensures var r := Run(m, [StartBeep(20, 80, 300)] + Iteration + [TurnOff, LoopTest]);
      r.log == m.log + [600, 900, 0] && r.latch == ZERO_LATCH && Live(r) == 0 && r.spawns == m.spawns + 1
  {
    var s := AfterSetBeepMode(m, 20, 80, 300);
    RunAppend(m, [StartBeep(20, 80, 300)] + Iteration, [TurnOff, LoopTest]);
    RunCons(m, StartBeep(20, 80, 300), Iteration);
    RunIteration(s);
    var c := AfterCheck(s);
    RunCons(c, TurnOff, [LoopTest]);
    RunCons(AfterTurnOff(c), LoopTest, []);
  }
}
