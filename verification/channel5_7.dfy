/** channel5_7_timer.c: channels 5 to 7 on TIM4, kept as a bank of three
    channel states (channel5_state first). The third channel is addressed by
    the literal 2 rather than by CHANNEL7, so the CHANNEL7 value itself
    reaches the `default` case of every switch. */
module Channel5to7 {
  import opened Common
  import opened TimerChannel

  const CHANNEL5: int := 4
  const CHANNEL6: int := 5
  const CHANNEL7: int := 6
  /** The value the switches use in place of CHANNEL7. */
  const THIRD: int := 2

  /** channel5_state, channel6_state, channel7_state. */
  predicate BankOk(b: seq<State>)
  {
    |b| == 3
  }

  /** The state a channel_t value selects in the control switches. */
  function Slot(channel: int): (r: Option<nat>)
    ensures r.Some? <==> channel in {CHANNEL5, CHANNEL6, THIRD}
    ensures r.Some? ==> r.value < 3
    ensures channel == CHANNEL5 ==> r == Some(0)
    ensures channel == CHANNEL6 ==> r == Some(1)
    ensures channel == THIRD ==> r == Some(2)
  {
    if channel == CHANNEL5 then Some(0)
    else if channel == CHANNEL6 then Some(1)
    else if channel == THIRD then Some(2)
    else None
  }

  /** `channel5_7_update_CCR`: the three channels write CCR1..CCR3 of TIM4. */
  function CcrOf(channel: int): (r: Option<Register>)
    ensures r.Some? <==> Slot(channel).Some?
    ensures r.Some? ==> r.value == Ccr(4, Slot(channel).value + 1)
  {
    match Slot(channel)
    case None => None
    case Some(k) => Some(Ccr(4, k + 1))
  }

  /** `channel5_7_enable`, `_disable`, `_on_off`, `_volume`, `_frequency`:
      only the addressed channel receives the call. */
  function Command(b: seq<State>, channel: int, c: Control): (r: seq<State>)
    requires BankOk(b)
    ensures BankOk(r)
    ensures Slot(channel).None? ==> r == b
    ensures forall i :: 0 <= i < 3 && Slot(channel) != Some(i) ==> r[i] == b[i]
    ensures Slot(channel).Some? ==> r[Slot(channel).value] == Apply(b[Slot(channel).value], c)
  {
    match Slot(channel)
    case None => b
    case Some(k) => b[k := Apply(b[k], c)]
  }

  /** Passing CHANNEL7 itself is a no-op for every control call. */
  lemma Channel7ValueIgnored(b: seq<State>, c: Control)
    requires BankOk(b)
    ensures Command(b, CHANNEL7, c) == b
  {
  }

  /** `channel5_7_set_waveform`: only NOISE is accepted, and it selects the
      noise table; any other wave changes nothing. */
  function SetWaveform(b: seq<State>, channel: int, wave: int): (r: seq<State>)
    requires BankOk(b)
    ensures BankOk(r)
    ensures wave != 4 || Slot(channel).None? ==> r == b
    ensures forall i :: 0 <= i < 3 && Slot(channel) != Some(i) ==> r[i] == b[i]
    ensures wave == 4 && Slot(channel).Some? ==>
      r[Slot(channel).value] == b[Slot(channel).value].(waveform := Noise, data := Noise)
  {
    if WaveOf(wave) != Some(Noise) then b
    else
      match Slot(channel)
      case None => b
      case Some(k) => b[k := b[k].(waveform := Noise, data := Noise)]
  }

  datatype BankStep = BankStep(bank: seq<State>, outs: seq<Out>)

  /** One channel's `channel5_7_update`: only CHANNEL5, CHANNEL6 and the
      literal 2 reach a register, CCR1..CCR3 of TIM4; any other channel
      value never writes. */
  function Tick(rom: Rom, s: State): (r: Step)
    ensures s.enabled == 0 ==> r == Step(s, NoWrite)
    ensures r.out.Write? ==> Slot(s.channel).Some? && r.out.target == Ccr(4, Slot(s.channel).value + 1)
    ensures Slot(s.channel).None? ==> !r.out.Write?
    ensures r.state == s.(count := r.state.count)
  {
    Update(Table(rom, s.data), s, CcrOf(s.channel))
  }

  /** `channel5_7_update`: each of the three channels takes one independent
      step; a disabled channel neither changes nor writes. */
  function UpdateAll(rom: Rom, b: seq<State>): (r: BankStep)
    requires BankOk(b)
    ensures BankOk(r.bank) && |r.outs| == 3
    ensures forall i :: 0 <= i < 3 ==> r.bank[i] == Tick(rom, b[i]).state && r.outs[i] == Tick(rom, b[i]).out
    ensures forall i :: 0 <= i < 3 && b[i].enabled == 0 ==> r.bank[i] == b[i] && r.outs[i] == NoWrite
    ensures forall i :: 0 <= i < 3 ==> r.bank[i] == b[i].(count := r.bank[i].count)
    ensures forall i :: 0 <= i < 3 && b[i].enabled != 0 && b[i].onOff != 0 ==>
      r.bank[i].count <= SAMPLE_FREQUENCY_MASK
  {
    var steps := seq(3, i requires 0 <= i < 3 => Tick(rom, b[i]));
    BankStep(seq(3, i requires 0 <= i < 3 => steps[i].state),
             seq(3, i requires 0 <= i < 3 => steps[i].out))
  }

  /** The `reset_channel` calls of `channel5_7_timer_init`: CHANNEL5,
      CHANNEL6 and the literal 2, each with the noise table. */
  function Init(b: seq<State>): (r: seq<State>)
    requires BankOk(b)
    ensures BankOk(r)
    ensures r[0].channel == CHANNEL5 && r[1].channel == CHANNEL6 && r[2].channel == THIRD
    ensures forall i :: 0 <= i < 3 ==>
      && r[i].data == Noise && r[i].vol == MIDI_MAX_VAL
      && r[i].count == 0 && r[i].freq == 0 && r[i].onOff == 0 && r[i].enabled == 0
      && r[i].waveform == b[i].waveform
  {
    [Reset(b[0], CHANNEL5, Noise), Reset(b[1], CHANNEL6, Noise), Reset(b[2], THIRD, Noise)]
  }

  /** After initialisation each channel's own `channel` field routes its
      writes to its own register, CCR1..CCR3 of TIM4. */
  lemma InitRoutesToOwnRegister(b: seq<State>)
    requires BankOk(b)
    ensures forall i :: 0 <= i < 3 ==> CcrOf(Init(b)[i].channel) == Some(Ccr(4, i + 1))
  {
    var r := Init(b);
    assert CcrOf(r[0].channel) == Some(Ccr(4, 1));
    assert CcrOf(r[1].channel) == Some(Ccr(4, 2));
    assert CcrOf(r[2].channel) == Some(Ccr(4, 3));
  }

  /** After initialisation nothing is written until a channel is enabled. */
  lemma InitIsSilent(rom: Rom, b: seq<State>)
    requires BankOk(b)
    ensures var r := UpdateAll(rom, Init(b));
      r.bank == Init(b) && r.outs == [NoWrite, NoWrite, NoWrite]
  {
    var r := UpdateAll(rom, Init(b));
    assert forall i :: 0 <= i < 3 ==> r.bank[i] == Init(b)[i];
  }
}
