/** Src/noise_channel.c: the DAC noise channel of the first generation.
    It steps through an 8-bit noise table and scales each sample linearly
    by the volume into the 12-bit range of DAC channel 1. */
module NoiseChannelF0 {
  import opened Bits
  import opened Common

  /** The mid-scale value written while the channel is off. */
  const MID_SCALE: nat := 2048
  /** Full scale of the 12-bit DAC. */
  const DAC_MAX: nat := 4095

  /** noise_channel_state_t (Src/noise_channel.c). */
  datatype State = State(count: u32, freq: u16, vol: u8, onOff: u8)

  datatype Step = Step(state: State, out: Out)

  /** `noise_channel_init`: counter, frequency and gate cleared, full volume. */
  function Init(): (r: State)
    ensures r.count == 0 && r.freq == 0 && r.vol == MIDI_MAX_VAL && r.onOff == 0
  {
    State(0, 0, MIDI_MAX_VAL, 0)
  }

  /** `noise_channel_on_off`: nonzero opens the gate and restarts the table. */
  function OnOff(s: State, state: u8): (r: State)
    ensures state != 0 ==> r.onOff == 1 && r.count == 0
    ensures state == 0 ==> r.onOff == 0 && r.count == s.count
    ensures r.(onOff := s.onOff, count := s.count) == s
  {
    if state != 0 then s.(onOff := 1, count := 0) else s.(onOff := 0)
  }

  function SetFrequency(s: State, freq: u16): (r: State)
    ensures r.freq == freq && r.(freq := s.freq) == s
  {
    s.(freq := freq)
  }

  function SetVolume(s: State, vol: u8): (r: State)
    ensures r.vol == vol && r.(vol := s.vol) == s
  {
    s.(vol := vol)
  }

  /** The DAC value for one 8-bit sample: `(sample * vol) / 127` first, then
      `(adjusted * 4095) / 255` (both in 32 bits, which cannot overflow here). */
  function DacValue(sample: u8, vol: u8): (r: nat)
    ensures vol <= MIDI_MAX_VAL ==> r <= DAC_MAX
    ensures vol == 0 ==> r == 0
    ensures sample == 0xFF && vol == MIDI_MAX_VAL ==> r == DAC_MAX
    ensures sample == 0 ==> r == 0
  {
    var adjusted := Adjusted(sample, vol);
    adjusted * DAC_MAX / 0xFF
  }

  /** The volume-scaled sample `(sample * vol) / 127`: never above the sample
      itself while the volume stays within 0..127, and the sample itself at 127. */
  function Adjusted(sample: u8, vol: u8): (r: nat)
    ensures vol <= MIDI_MAX_VAL ==> r <= sample
    ensures vol == MIDI_MAX_VAL ==> r == sample
    ensures r * MIDI_MAX_VAL <= sample * vol < (r + 1) * MIDI_MAX_VAL
  {
    sample * vol / MIDI_MAX_VAL
  }

  /** A louder volume or a larger sample never lowers the DAC value. */
  lemma DacValueMonotone(s1: u8, v1: u8, s2: u8, v2: u8)
    requires s1 <= s2 && v1 <= v2
    ensures DacValue(s1, v1) <= DacValue(s2, v2)
  {
    MulMono(s1, s2, v1);
    MulMono(v1, v2, s2);
    DivMonotone(s1 * v1, s2 * v2, MIDI_MAX_VAL);
    var a1, a2 := Adjusted(s1, v1), Adjusted(s2, v2);
    MulMono(a1, a2, DAC_MAX);
    DivMonotone(a1 * DAC_MAX, a2 * DAC_MAX, 0xFF);
  }

  /** `noise_channel_update` against the 16384-byte table `noise`. */
  function Update(noise: seq<u8>, s: State): (r: Step)
    ensures s.onOff == 0 ==> r == Step(s, Write(Dac1, MID_SCALE))
    ensures s.onOff != 0 ==> r.state == s.(count := (s.count + s.freq) % SAMPLE_FREQUENCY)
    ensures r.state.count < SAMPLE_FREQUENCY || r.state == s
    ensures s.onOff != 0 ==> (r.out == Undefined <==> r.state.count >= |noise|)
    ensures r.out.Write? ==> r.out.target == Dac1
    ensures s.onOff != 0 && r.out.Write? ==> r.out.value == DacValue(noise[r.state.count], s.vol)
    ensures s.vol <= MIDI_MAX_VAL && r.out.Write? ==> r.out.value <= DAC_MAX
  {
    if s.onOff == 0 then Step(s, Write(Dac1, MID_SCALE))
    else
      var c := (s.count + s.freq) % WORD % SAMPLE_FREQUENCY;
      WordModSample(s.count + s.freq);
      var s' := s.(count := c);
      if c < |noise| then Step(s', Write(Dac1, DacValue(noise[c], s.vol)))
      else Step(s', Undefined)
  }

  /** With the full 16384-byte table a running channel always writes. */
  lemma UpdateWrites(noise: seq<u8>, s: State)
    requires |noise| == SAMPLE_FREQUENCY
    ensures Update(noise, s).out.Write?
  {
  }
}
