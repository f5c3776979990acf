/** Audio_Synthesizer_H533/Core/Src/noise_channel.c: the DAC noise channel of
    the H533 generation. It attenuates a 16-bit noise sample by a right
    shift whose count is stored in a uint8_t, so a volume above 127 turns
    the negative count into 248..255, a shift C leaves undefined. */
module NoiseChannelH5 {
  import opened Bits
  import opened Common

  const MID_SCALE: nat := 2048

  /** noise_channel_state_t of this generation. */
  datatype State = State(count: u32, freq: u16, vol: u8, onOff: u8, waveform: Wave)

  datatype Step = Step(state: State, out: Out)

  /** `reset_noise_channel`, the state part of `noise_channel_init`. */
  function Reset(): (r: State)
    ensures r.count == 0 && r.onOff == 0 && r.freq == 0 && r.vol == MIDI_MAX_VAL
    ensures r.waveform == Noise
  {
    State(0, 0, MIDI_MAX_VAL, 0, Noise)
  }

  /** `noise_channel_set_waveform`: anything other than NOISE is ignored. */
  function SetWaveform(s: State, wave: int): (r: State)
    ensures wave != 4 ==> r == s
    ensures wave == 4 ==> r == s.(waveform := Noise)
  {
    if WaveOf(wave) == Some(Noise) then s.(waveform := Noise) else s
  }

  function OnOff(s: State, state: u8): (r: State)
    ensures state != 0 ==> r.onOff == 1 && r.count == 0
    ensures state == 0 ==> r.onOff == 0 && r.count == s.count
    ensures r.(onOff := s.onOff, count := s.count) == s
  {
    if state != 0 then s.(onOff := 1, count := 0) else s.(onOff := 0)
  }

  function SetVolume(s: State, vol: u8): (r: State)
    ensures r.vol == vol && r.(vol := s.vol) == s
  {
    s.(vol := vol)
  }

  function SetFrequency(s: State, freq: u16): (r: State)
    ensures r.freq == freq && r.(freq := s.freq) == s
  {
    s.(freq := freq)
  }

  /** `uint8_t shift = ((MIDI_MAX_VAL - vol) >> 4)`: the int result converted
      to 8 bits. */
  function StoredShift(vol: u8): (r: u8)
    ensures vol <= MIDI_MAX_VAL ==> r <= 7 && r == VolumeShift(vol)
    ensures vol > MIDI_MAX_VAL ==> r >= 248
  {
    VolumeShift(vol) % 0x100
  }

  /** `noise_channel_update` against the 16-bit table `noise`. */
  function Update(noise: seq<u16>, s: State): (r: Step)
    ensures s.onOff == 0 ==> r == Step(s, Write(Dac1, MID_SCALE))
    ensures s.onOff != 0 ==> r.state == s.(count := (s.count + s.freq) % SAMPLE_FREQUENCY)
    ensures r.state.count < SAMPLE_FREQUENCY || r.state == s
    ensures s.onOff != 0 ==> (r.out == Undefined <==> r.state.count >= |noise| || s.vol > MIDI_MAX_VAL)
    ensures r.out.Write? ==> r.out.target == Dac1
    ensures s.onOff != 0 && r.out.Write? ==> r.out.value <= noise[r.state.count]
    ensures s.onOff != 0 && r.out.Write? ==> r.out.value == noise[r.state.count] / Pow2(VolumeShift(s.vol))
    ensures s.onOff != 0 && s.vol == MIDI_MAX_VAL && r.state.count < |noise| ==>
      r.out == Write(Dac1, noise[r.state.count])
  {
    if s.onOff == 0 then Step(s, Write(Dac1, MID_SCALE))
    else
      var x := (s.count + s.freq) % WORD;
      SubtractModulusIsMod(x, SAMPLE_FREQUENCY);
      WordModSample(s.count + s.freq);
      var c := SubtractWhileAbove(x, SAMPLE_FREQUENCY - 1, SAMPLE_FREQUENCY);
      var s' := s.(count := c);
      if c >= |noise| then Step(s', Undefined)
      else
        match ShiftSample(noise[c], StoredShift(s.vol))
        case None => Step(s', Undefined)
        case Some(v) => Step(s', Write(Dac1, v))
  }

  /** A louder volume never gives a smaller DAC value. */
  lemma UpdateMonotoneInVolume(noise: seq<u16>, s: State, quiet: u8, loud: u8)
    requires s.onOff != 0 && quiet <= loud <= MIDI_MAX_VAL
    requires (s.count + s.freq) % SAMPLE_FREQUENCY < |noise|
    ensures Update(noise, s.(vol := quiet)).out.value <= Update(noise, s.(vol := loud)).out.value
  {
    var c := (s.count + s.freq) % SAMPLE_FREQUENCY;
    var sq, sl := StoredShift(quiet), StoredShift(loud);
    assert sl <= sq;
    ShiftRightAntitone(noise[c], sl, sq);
  }
}
