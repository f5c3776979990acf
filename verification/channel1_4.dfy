/** channel1_4_timer.c: channels 1 to 4 on the four capture/compare registers
    of TIM3, kept as a bank of four channel states (channel1_state first). */
module Channel1to4 {
  import opened Common
  import opened TimerChannel

  /** The channel_t values this file serves, CHANNEL1 .. CHANNEL4. */
  const CHANNEL1: int := 0
  const CHANNEL4: int := 3

  /** channel1_state .. channel4_state. */
  predicate BankOk(b: seq<State>)
  {
    |b| == 4
  }

  /** The state a channel_t value selects in the control switches. */
  function Slot(channel: int): (r: Option<nat>)
    ensures r.Some? <==> CHANNEL1 <= channel <= CHANNEL4
    ensures r.Some? ==> r.value == channel && r.value < 4
  {
    if CHANNEL1 <= channel <= CHANNEL4 then Some(channel) else None
  }

  /** `channel_update_CCR`: CHANNEL1..CHANNEL4 write CCR1..CCR4 of TIM3. */
  function CcrOf(channel: int): (r: Option<Register>)
    ensures r.Some? <==> CHANNEL1 <= channel <= CHANNEL4
    ensures r.Some? ==> r.value == Ccr(3, channel + 1)
  {
    if CHANNEL1 <= channel <= CHANNEL4 then Some(Ccr(3, channel + 1)) else None
  }

  /** `channel1_4_enable`, `_disable`, `_on_off`, `_volume`, `_frequency`:
      the addressed channel receives the call, every other channel is left
      alone, and a channel outside CHANNEL1..CHANNEL4 changes nothing. */
  function Command(b: seq<State>, channel: int, c: Control): (r: seq<State>)
    requires BankOk(b)
    ensures BankOk(r)
    ensures !(CHANNEL1 <= channel <= CHANNEL4) ==> r == b
    ensures forall i :: 0 <= i < 4 && i != channel ==> r[i] == b[i]
    ensures CHANNEL1 <= channel <= CHANNEL4 ==> r[channel] == Apply(b[channel], c)
  {
    match Slot(channel)
    case None => b
    case Some(k) => b[k := Apply(b[k], c)]
  }

  /** `channel1_4_set_waveform`: SINE, TRIG and RAMP select their own table;
      SQUARE records the tag but keeps the sine table, since the square wave
      is computed; NOISE or an unknown value changes nothing. */
  function SetWaveform(b: seq<State>, channel: int, wave: int): (r: seq<State>)
    requires BankOk(b)
    ensures BankOk(r)
    ensures !(0 <= wave <= 3) || !(CHANNEL1 <= channel <= CHANNEL4) ==> r == b
    ensures forall i :: 0 <= i < 4 && i != channel ==> r[i] == b[i]
    ensures 0 <= wave <= 3 && CHANNEL1 <= channel <= CHANNEL4 ==>
      r[channel] == b[channel].(waveform := WaveOf(wave).value,
                                data := if wave == 3 then Sine else WaveOf(wave).value)
  {
    match WaveOf(wave)
    case None => b
    case Some(w) =>
      if w == Noise then b
      else
        var data := if w == Square then Sine else w;
        match Slot(channel)
        case None => b
        case Some(k) => b[k := b[k].(waveform := w, data := data)]
  }

  /** The whole bank after `channel1_4_update`, and the write each channel made. */
  datatype BankStep = BankStep(bank: seq<State>, outs: seq<Out>)

  /** One channel's `channel_update`, reading the table its `data` names and
      writing through the register switch on its `channel` field. A channel
      value outside 1..4 matches no register, so the update never writes. */
  function Tick(rom: Rom, s: State): (r: Step)
    ensures s.enabled == 0 ==> r == Step(s, NoWrite)
    ensures r.out.Write? ==> CHANNEL1 <= s.channel <= CHANNEL4 && r.out.target == Ccr(3, s.channel + 1)
    ensures !(CHANNEL1 <= s.channel <= CHANNEL4) ==> !r.out.Write?
    ensures r.state == s.(count := r.state.count)
  {
    Update(Table(rom, s.data), s, CcrOf(s.channel))
  }

  /** `channel1_4_update`: every channel takes one independent step. A disabled
      channel neither changes nor writes; any other channel changes at most
      its counter, which then lies within the mask. */
  function UpdateAll(rom: Rom, b: seq<State>): (r: BankStep)
    requires BankOk(b)
    ensures BankOk(r.bank) && |r.outs| == 4
    ensures forall i :: 0 <= i < 4 ==> r.bank[i] == Tick(rom, b[i]).state && r.outs[i] == Tick(rom, b[i]).out
    ensures forall i :: 0 <= i < 4 && b[i].enabled == 0 ==> r.bank[i] == b[i] && r.outs[i] == NoWrite
    ensures forall i :: 0 <= i < 4 ==> r.bank[i] == b[i].(count := r.bank[i].count)
    ensures forall i :: 0 <= i < 4 && b[i].enabled != 0 && b[i].onOff != 0 ==>
      r.bank[i].count <= SAMPLE_FREQUENCY_MASK
  {
    var steps := seq(4, i requires 0 <= i < 4 => Tick(rom, b[i]));
    BankStep(seq(4, i requires 0 <= i < 4 => steps[i].state),
             seq(4, i requires 0 <= i < 4 => steps[i].out))
  }

  /** The `reset_channel` calls of `channel1_4_timer_init`: each channel gets
      its own channel_t value and the sine table. */
  function Init(b: seq<State>): (r: seq<State>)
    requires BankOk(b)
    ensures BankOk(r)
    ensures forall i :: 0 <= i < 4 ==>
      && r[i].channel == i && r[i].data == Sine && r[i].vol == MIDI_MAX_VAL
      && r[i].count == 0 && r[i].freq == 0 && r[i].onOff == 0 && r[i].enabled == 0
      && r[i].waveform == b[i].waveform
  {
    seq(4, i requires 0 <= i < 4 => Reset(b[i], i, Sine))
  }

  /** After initialisation every channel writes back to its own register:
      enabling and starting channel k makes the next update write CCR(k+1). */
  lemma InitRoutesToOwnRegister(rom: Rom, b: seq<State>, k: int)
    requires BankOk(b) && CHANNEL1 <= k <= CHANNEL4
    ensures var b' := Command(Command(Init(b), k, SetEnabled(1)), k, SwitchGate(1));
      var o := UpdateAll(rom, b').outs[k];
      o.Write? ==> o.target == Ccr(3, k + 1)
  {
  }

  /** After initialisation nothing is written until a channel is enabled. */
  lemma InitIsSilent(rom: Rom, b: seq<State>)
    requires BankOk(b)
    ensures var r := UpdateAll(rom, Init(b));
      r.bank == Init(b) && r.outs == [NoWrite, NoWrite, NoWrite, NoWrite]
  {
    var r := UpdateAll(rom, Init(b));
    assert forall i :: 0 <= i < 4 ==> r.bank[i] == Init(b)[i];
  }

  /** A square channel at full volume, once enabled and started, writes 0 on
      the first half of each period and ARR on the second: with frequency f
      within the half mask, its first update writes 0. */
  lemma SquareStartsLow(rom: Rom, b: seq<State>, k: int, f: u16)
    requires BankOk(b) && CHANNEL1 <= k <= CHANNEL4 && f < HALF_MASK
    ensures var b1 := SetWaveform(Init(b), k, 3);
      var b2 := Command(Command(Command(b1, k, SetEnabled(1)), k, SetFrequency(f)), k, SwitchGate(1));
      UpdateAll(rom, b2).outs[k] == Write(Ccr(3, k + 1), 0)
  {
  }
}
