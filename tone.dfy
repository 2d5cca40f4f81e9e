/** The tone driver of the buzzer library: the constants of include/buzzer_lib.h, the C integer
    types the library's interface uses, and the level-to-frequency mapping of set_buzzer_state. */
module Tone {

  // Constants of include/buzzer_lib.h.
  const BASE_FREQ: int := 500
  const ZERO_LATCH: int := 0x00
  const ON_LATCH: int := 0x01
  const STATE_MAX: int := 100
  const STATE_MIN: int := 0
  const DEFAULT_PIN: int := 1

  /** EXIT_SUCCESS of <stdlib.h>, which every entry point returns. */
  const EXIT_SUCCESS: int := 0

  /** The static `baseline_freq` of src/buzzer_lib.c. A `float` in C, but it only ever holds the
      integer 500, and every sum it enters is an integer below 2^24, so the float arithmetic and
      the conversion back to `int` in softToneWrite are exact. */
  const BASELINE_FREQ: int := 500

  /** Highest frequency set_buzzer_state ever writes: the one for level STATE_MAX (1000 Hz). */
  const MAX_TONE: int := STATE_MAX * 5 + BASELINE_FREQ

  /** Lowest non-zero frequency set_buzzer_state writes: the one for level STATE_MIN + 1 (505 Hz). */
  const MIN_TONE: int := (STATE_MIN + 1) * 5 + BASELINE_FREQ

  /** C `int` (32 bits on the targets of the library). */
  type int32 = x: int | -0x8000_0000 <= x < 0x8000_0000

  /** C `char`, taken as signed; the latch only ever holds 0 or 1, so the signedness of `char`
      on the target does not matter. */
  type int8 = x: int | -0x80 <= x < 0x80

  /** C `unsigned char`, the type of the two beep levels. */
  type uint8 = x: int | 0 <= x < 0x100

  datatype Option<T> = None | Some(value: T)

  /** The frequency that set_buzzer_state(level) passes to softToneWrite. A level above
      STATE_MAX is first clamped to STATE_MAX and then mapped; a level at or below STATE_MIN
      bypasses the formula and writes STATE_MIN itself (silence, no baseline added). */
  function Frequency(level: int): (f: int)
    ensures f == 0 <==> level <= STATE_MIN
    ensures f == 0 || MIN_TONE <= f <= MAX_TONE
    ensures level >= STATE_MAX ==> f == MAX_TONE
    ensures STATE_MIN < level <= STATE_MAX ==> f == level * 5 + BASELINE_FREQ
  {
    if level > STATE_MAX then
      STATE_MAX * 5 + BASELINE_FREQ
    else if level <= STATE_MIN then
      STATE_MIN
    else
      level * 5 + BASELINE_FREQ
  }

  /** The inverse of Frequency on the levels it maps linearly: the unique level in
      STATE_MIN+1..STATE_MAX whose tone is `f`, or None when no such level exists. */
  function LevelFor(f: int): (r: Option<int>)
    ensures r.Some? ==> STATE_MIN < r.value <= STATE_MAX && Frequency(r.value) == f
    ensures r.None? ==> forall level :: STATE_MIN < level <= STATE_MAX ==> Frequency(level) != f
  {
    if MIN_TONE <= f <= MAX_TONE && (f - BASELINE_FREQ) % 5 == 0 then
      Some((f - BASELINE_FREQ) / 5)
    else
      None
  }

  /** Every level in the linear range is recovered from its tone; silence belongs to no level. */
  lemma ToneRoundTrip(level: int)
    ensures STATE_MIN < level <= STATE_MAX ==> LevelFor(Frequency(level)) == Some(level)
    ensures level <= STATE_MIN ==> LevelFor(Frequency(level)) == None
  {
  }

  /** Raising the level never lowers the tone: both clamps keep the mapping monotone. */
  lemma FrequencyMonotone(lo: int, hi: int)
    requires lo <= hi
    ensures Frequency(lo) <= Frequency(hi)
  {
  }
}
