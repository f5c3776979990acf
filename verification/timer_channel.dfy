/** One PWM timer channel of the single-voice generation (channel1_4_timer.c
    and channel5_7_timer.c, which share the same per-channel state and the
    same update step and differ only in which channels they serve).

    Each tick a channel advances its phase counter by its frequency, folds
    the counter back under SAMPLE_FREQUENCY_MASK by repeated subtraction of
    the mask, and writes either a computed square wave or a table sample
    attenuated by the volume into its capture/compare register. */
module TimerChannel {
  import opened Bits
  import opened Common

  /** Auto-reload value of the channel timers: (1 << 10) - 1. */
  const ARR: nat := 1023
  /** SAMPLE_FREQUENCY_MASK >> 1: the point where the square wave flips. */
  const HALF_MASK: nat := 8191

  /** channel_state_t of these files: the table is kept as the tag of the
      table `waveform_data` points at. */
  datatype State = State(
    count: u32, freq: u16, vol: u8, onOff: u8, enabled: u8,
    channel: int, waveform: Wave, data: Wave)

  /** The channel after one update, and what the update wrote. */
  datatype Step = Step(state: State, out: Out)

  /** The phase advance: a 32-bit add, then `while (count > MASK) count -= MASK`. */
  function Advance(count: u32, freq: u16): (r: u32)
    ensures r <= SAMPLE_FREQUENCY_MASK
    ensures var x := (count + freq) % WORD;
      r == (if x <= SAMPLE_FREQUENCY_MASK then x
            else if x % SAMPLE_FREQUENCY_MASK == 0 then SAMPLE_FREQUENCY_MASK
            else x % SAMPLE_FREQUENCY_MASK)
    ensures count + freq <= SAMPLE_FREQUENCY_MASK ==> r == count + freq
    ensures SAMPLE_FREQUENCY_MASK < count + freq <= 2 * SAMPLE_FREQUENCY_MASK ==>
      r == count + freq - SAMPLE_FREQUENCY_MASK
  {
    var x := (count + freq) % WORD;
    SubtractMaskClosedForm(x, SAMPLE_FREQUENCY_MASK);
    SubtractWhileAbove(x, SAMPLE_FREQUENCY_MASK, SAMPLE_FREQUENCY_MASK)
  }

  /** `table[count] >> ((MIDI_MAX_VAL - vol) >> 4)` stored in a uint16_t;
      None when the read leaves the table or the shift count is negative. */
  function Attenuate(table: seq<u16>, count: nat, vol: u8): (r: Option<u16>)
    ensures r.Some? <==> count < |table| && vol <= MIDI_MAX_VAL
    ensures r.Some? ==> r.value <= table[count]
    ensures r.Some? ==> r.value == table[count] / Pow2(VolumeShift(vol))
    ensures count < |table| && vol == MIDI_MAX_VAL ==> r == Some(table[count])
  {
    if count < |table| && vol <= MIDI_MAX_VAL then
      var shifted := ShiftSample(table[count], VolumeShift(vol));
      Some(shifted.value)
    else None
  }

  /** channel_update / channel5_7_update for one channel; `reg` is where the
      channel's register switch sends its `channel` field. */
  function Update(table: seq<u16>, s: State, reg: Option<Register>): (r: Step)
    ensures s.enabled == 0 ==> r == Step(s, NoWrite)
    ensures s.enabled != 0 && s.onOff == 0 ==> r == Step(s, WriteTo(reg, ARR / 2))
    ensures s.enabled != 0 && s.onOff != 0 ==>
      r.state == s.(count := Advance(s.count, s.freq))
    ensures s.enabled != 0 && s.onOff != 0 && s.waveform == Square ==>
      r.out == WriteTo(reg, if r.state.count < HALF_MASK then 0 else ARR)
    ensures s.enabled != 0 && s.onOff != 0 && s.waveform != Square ==>
      (r.out == Undefined <==> r.state.count >= |table| || s.vol > MIDI_MAX_VAL)
    ensures s.enabled != 0 && s.onOff != 0 && s.waveform != Square && r.out.Write? ==>
      r.out.value <= table[r.state.count]
    ensures s.enabled != 0 && s.onOff != 0 && s.waveform != Square && r.out.Write? ==>
      r.out.value == table[r.state.count] / Pow2(VolumeShift(s.vol))
    ensures (s.enabled != 0 && s.onOff != 0 && s.waveform != Square && s.vol == MIDI_MAX_VAL
             && r.state.count < |table|) ==> r.out == WriteTo(reg, table[r.state.count])
    ensures r.state.count <= SAMPLE_FREQUENCY_MASK || r.state == s
  {
    if s.enabled == 0 then Step(s, NoWrite)
    else if s.onOff == 0 then Step(s, WriteTo(reg, ARR / 2))
    else
      var c := Advance(s.count, s.freq);
      var s' := s.(count := c);
      if s.waveform == Square then
        Step(s', WriteTo(reg, if c < HALF_MASK then 0 else ARR))
      else
        match Attenuate(table, c, s.vol)
        case None => Step(s', Undefined)
        case Some(v) => Step(s', WriteTo(reg, v))
  }

  /** A louder volume never gives a smaller sample. */
  lemma AttenuateMonotone(table: seq<u16>, count: nat, quiet: u8, loud: u8)
    requires count < |table| && quiet <= loud <= MIDI_MAX_VAL
    ensures Attenuate(table, count, quiet).value <= Attenuate(table, count, loud).value
  {
    var sq, sl := VolumeShift(quiet), VolumeShift(loud);
    assert sl <= sq;
    ShiftRightAntitone(table[count], sl, sq);
  }

  /** A running, enabled, non-square channel with a full-length table and a
      volume of at most 127 always writes its register (never undefined). */
  lemma UpdateDefined(table: seq<u16>, s: State, reg: Option<Register>)
    requires |table| >= SAMPLE_FREQUENCY && s.vol <= MIDI_MAX_VAL
    ensures Update(table, s, reg).out != Undefined
    ensures reg.Some? ==> Update(table, s, reg).out.Write? || s.enabled == 0
  {
  }

  // ---- per-channel setters (the body of one case of each switch) ----

  /** The control calls that write one field of a channel: `enable` and
      `disable` (SetEnabled 1 / 0), `on_off`, `volume` and `frequency`. */
  datatype Control = SetEnabled(flag: u8) | SwitchGate(gate: u8) | SetVolume(vol: u8) | SetFrequency(freq: u16)

  /** One control call applied to the addressed channel: it writes its own
      field (and `on_off` also the counter) and nothing else. */
  function Apply(s: State, c: Control): (r: State)
    ensures r.channel == s.channel && r.waveform == s.waveform && r.data == s.data
    ensures c.SetEnabled? ==> r == s.(enabled := c.flag)
    ensures c.SwitchGate? ==> r == OnOff(s, c.gate)
    ensures c.SetVolume? ==> r == s.(vol := c.vol)
    ensures c.SetFrequency? ==> r == s.(freq := c.freq)
  {
    match c
    case SetEnabled(f) => s.(enabled := f)
    case SwitchGate(g) => OnOff(s, g)
    case SetVolume(v) => s.(vol := v)
    case SetFrequency(f) => s.(freq := f)
  }

  /** `on_off(state)`: a nonzero state opens the gate and restarts the phase,
      zero only closes the gate. */
  function OnOff(s: State, state: u8): (r: State)
    ensures state != 0 ==> r.onOff == 1 && r.count == 0
    ensures state == 0 ==> r.onOff == 0 && r.count == s.count
    ensures r.(onOff := s.onOff, count := s.count) == s
  {
    if state != 0 then s.(onOff := 1, count := 0) else s.(onOff := 0)
  }

  /** `reset_channel(channel, channel_num)` with the table it installs; the
      waveform tag is not touched. */
  function Reset(s: State, channelNum: int, data: Wave): (r: State)
    ensures r.count == 0 && r.enabled == 0 && r.freq == 0 && r.onOff == 0
    ensures r.vol == MIDI_MAX_VAL && r.data == data && r.channel == channelNum
    ensures r.waveform == s.waveform
  {
    State(0, 0, MIDI_MAX_VAL, 0, 0, channelNum, s.waveform, data)
  }

  /** A freshly reset channel stays silent: it is disabled, so an update
      writes nothing and changes nothing. */
  lemma ResetIsSilent(table: seq<u16>, s: State, channelNum: int, data: Wave, reg: Option<Register>)
    ensures var s' := Reset(s, channelNum, data);
      Update(table, s', reg) == Step(s', NoWrite)
  {
  }

  /** Opening the gate and updating once puts the counter exactly at the
      frequency (the first sample is table[freq], for a frequency within the mask). */
  lemma FirstTickAfterOn(table: seq<u16>, s: State, reg: Option<Register>)
    requires s.enabled != 0 && s.freq <= SAMPLE_FREQUENCY_MASK
    ensures Update(table, OnOff(s, 1), reg).state.count == s.freq
  {
  }
}
