/** Src/channel1_timer.c: the single PWM channel of the first generation,
    on CCR1 of TIM3 with a 7-bit period. Its 8-bit wavetable pointer is a
    file-level static that stays NULL until `channel1_timer_init` or a
    `set_waveform(SINE)` points it at the sine table. */
module Channel1Timer {
  import opened Bits
  import opened Common

  /** Auto-reload value: (1 << 7) - 1. */
  const ARR: nat := 127
  const REGISTER: Register := Ccr(3, 1)

  /** channel1_state plus the static `waveform_data`, kept as whether it
      points at the sine table (true) or is still NULL (false). The waveform
      tag is any waveforms_t value a caller passed. */
  datatype State = State(
    count: u32, freq: u16, vol: u8, onOff: u8, enabled: u8,
    waveform: int, sineLoaded: bool)

  datatype Step = Step(state: State, out: Out)

  /** `(((MIDI_MAX_VAL - vol) >> 4) + 1)`: one more than the shift of the
      later generations, so that an 8-bit sample fits the 7-bit period. */
  function OutputShift(vol: u8): (r: int)
    ensures vol <= MIDI_MAX_VAL ==> 1 <= r <= 8
    ensures vol == MIDI_MAX_VAL ==> r == 1
    ensures MIDI_MAX_VAL < vol < 144 ==> r == 0
    ensures vol >= 144 ==> r < 0
  {
    VolumeShift(vol) + 1
  }

  /** The phase advance: a 32-bit add, then `while (count > MASK) count -= SAMPLE_FREQUENCY`. */
  function Advance(count: u32, freq: u16): (r: u32)
    ensures r == (count + freq) % SAMPLE_FREQUENCY
  {
    var x := (count + freq) % WORD;
    SubtractModulusIsMod(x, SAMPLE_FREQUENCY);
    WordModSample(count + freq);
    SubtractWhileAbove(x, SAMPLE_FREQUENCY_MASK, SAMPLE_FREQUENCY)
  }

  /** `channel1_update` against the 8-bit sine table `sine`. */
  function Update(sine: seq<u8>, s: State): (r: Step)
    ensures s.enabled == 0 ==> r == Step(s, NoWrite)
    ensures s.enabled != 0 && s.onOff == 0 ==> r == Step(s, Write(REGISTER, ARR / 2))
    ensures s.enabled != 0 && s.onOff != 0 ==>
      r.state == s.(count := (s.count + s.freq) % SAMPLE_FREQUENCY)
    ensures s.enabled != 0 && s.onOff != 0 ==>
      (r.out == Undefined <==> !s.sineLoaded || r.state.count >= |sine| || s.vol >= 144)
    ensures r.out.Write? ==> r.out.target == REGISTER
    ensures s.enabled != 0 && s.onOff != 0 && r.out.Write? && s.vol <= MIDI_MAX_VAL ==>
      r.out.value <= ARR && 2 * r.out.value <= sine[r.state.count]
    ensures s.enabled != 0 && s.onOff != 0 && r.out.Write? ==>
      r.out.value == sine[r.state.count] / Pow2(OutputShift(s.vol))
    ensures (s.enabled != 0 && s.onOff != 0 && r.out.Write? && s.vol == MIDI_MAX_VAL) ==>
      r.out.value == sine[r.state.count] / 2
  {
    if s.enabled == 0 then Step(s, NoWrite)
    else if s.onOff == 0 then Step(s, Write(REGISTER, ARR / 2))
    else
      var c := Advance(s.count, s.freq);
      var s' := s.(count := c);
      var shift := OutputShift(s.vol);
      if !s.sineLoaded || c >= |sine| || shift < 0 then Step(s', Undefined)
      else
        HalfShift(sine[c], shift);
        Step(s', Write(REGISTER, ShiftSample(sine[c], shift).value))
  }

  /** Shifting a byte right by at least one keeps it within the 7-bit period,
      at or below half the byte. */
  lemma HalfShift(b: u8, k: int)
    requires 0 <= k < 32
    ensures k >= 1 ==> ShiftSample(b, k).value <= ARR && 2 * ShiftSample(b, k).value <= b
  {
  }

  /** Over many ticks the counter is the sum of the frequency steps, modulo
      SAMPLE_FREQUENCY: a running channel's phase after n updates. */
  function Run(sine: seq<u8>, s: State, n: nat): (r: State)
    decreases n
  {
    if n == 0 then s else Run(sine, Update(sine, s).state, n - 1)
  }

  lemma {:induction false} RunCount(sine: seq<u8>, s: State, n: nat)
    requires s.enabled != 0 && s.onOff != 0
    ensures n >= 1 ==> Run(sine, s, n).count == (s.count + n * s.freq) % SAMPLE_FREQUENCY
    ensures Run(sine, s, n) == s.(count := Run(sine, s, n).count)
    decreases n
  {
    if n > 0 {
      var s1 := Update(sine, s).state;
      assert s1 == s.(count := (s.count + s.freq) % SAMPLE_FREQUENCY);
      assert Run(sine, s, n) == Run(sine, s1, n - 1);
      RunCount(sine, s1, n - 1);
      if n > 1 {
        PhaseSum(s.count, s.freq, n);
      } else {
        assert n * s.freq == s.freq;
      }
    }
  }

  /** One step of the phase followed by n - 1 more is n steps. */
  lemma PhaseSum(c: nat, f: nat, n: nat)
    requires n >= 1
    ensures ((c + f) % SAMPLE_FREQUENCY + (n - 1) * f) % SAMPLE_FREQUENCY == (c + n * f) % SAMPLE_FREQUENCY
  {
    ModAddLeft(c + f, (n - 1) * f, SAMPLE_FREQUENCY);
    assert n * f == (n - 1) * f + f;
  }

  // ---- control functions ----

  function Enable(s: State): (r: State)
    ensures r.enabled == 1 && r == s.(enabled := 1)
  {
    s.(enabled := 1)
  }

  function Disable(s: State): (r: State)
    ensures r.enabled == 0 && r == s.(enabled := 0)
  {
    s.(enabled := 0)
  }

  /** `channel1_set_waveform`: the tag is always recorded, whatever its value;
      only SINE (re)points the table, any other value keeps the old pointer. */
  function SetWaveform(s: State, wave: int): (r: State)
    ensures r.waveform == wave
    ensures wave == 0 ==> r.sineLoaded
    ensures wave != 0 ==> r.sineLoaded == s.sineLoaded
    ensures r.(waveform := s.waveform, sineLoaded := s.sineLoaded) == s
  {
    if wave == 0 then s.(waveform := wave, sineLoaded := true) else s.(waveform := wave)
  }

  /** `channel1_on_off`: nonzero opens the gate and restarts the phase. */
  function OnOff(s: State, state: u8): (r: State)
    ensures state != 0 ==> r.onOff == 1 && r.count == 0
    ensures state == 0 ==> r.onOff == 0 && r.count == s.count
    ensures r.(onOff := s.onOff, count := s.count) == s
  {
    if state != 0 then s.(onOff := 1, count := 0) else s.(onOff := 0)
  }

  function SetVolume(s: State, vol: u8): (r: State)
    ensures r.vol == vol && r.(vol := s.vol) == s
  {
    s.(vol := vol)
  }

  function SetFrequency(s: State, freq: u16): (r: State)
    ensures r.freq == freq && r.(freq := s.freq) == s
  {
    s.(freq := freq)
  }

  /** The state part of `channel1_timer_init`: everything cleared, full
      volume, the sine table loaded; the waveform tag is not touched. */
  function Init(s: State): (r: State)
    ensures r.count == 0 && r.enabled == 0 && r.freq == 0 && r.onOff == 0
    ensures r.vol == MIDI_MAX_VAL && r.sineLoaded && r.waveform == s.waveform
  {
    State(0, 0, MIDI_MAX_VAL, 0, 0, s.waveform, true)
  }

  /** Before initialisation the table pointer is NULL, so a running channel's
      update reads through it; once initialised no later `set_waveform` can
      take the table away again. */
  lemma InitLoadsTable(s: State, wave: int)
    ensures SetWaveform(Init(s), wave).sineLoaded
  {
  }

  /** With the full-length table loaded and a volume of at most 127, every
      update of a running channel writes a duty cycle within the period. */
  lemma UpdateInPeriod(sine: seq<u8>, s: State)
    requires s.sineLoaded && |sine| >= SAMPLE_FREQUENCY && s.vol <= MIDI_MAX_VAL && s.enabled != 0
    ensures Update(sine, s).out.Write?
    ensures Update(sine, s).out.value <= ARR
  {
  }
}
