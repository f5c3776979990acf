/** channel_driver.c of the H533 generation: seven polyphonic channels, each
    mixing up to four voices (ChannelVoice) into one PWM duty cycle on TIM3
    or TIM4.

    The engine is the seven `channelN_state` structs in order, plus the four
    `channel1_state.voices[v].env_target` values. A voice step reads its own
    channel but reads and writes channel 1's targets, whatever the channel;
    every other effect of the step is lost with its local copy, so a tick
    leaves the channels themselves exactly as it found them. */
module ChannelDriver {
  import opened Bits
  import opened Common
  import opened ChannelVoice

  const NUM_CHANNELS: nat := 7

  /** channel_state_t; `data` is the table `waveform_data` points at. */
  datatype Channel = Channel(
    enable: u8, id: int, waveform: Wave, volume: u16,
    numVoices: u8, activeVoices: u8, voices: seq<Voice>, data: Wave)

  /** The voices array has MAX_CHANNEL_VOICES entries, and no call installs
      the noise table in this driver. */
  predicate ChannelOk(c: Channel)
  {
    |c.voices| == MAX_CHANNEL_VOICES && c.data != Noise
  }

  predicate ChannelsOk(cs: seq<Channel>)
  {
    |cs| == NUM_CHANNELS && forall k :: 0 <= k < NUM_CHANNELS ==> ChannelOk(cs[k])
  }

  /** channel1_state .. channel7_state, and channel 1's envelope targets. */
  datatype Engine = Engine(channels: seq<Channel>, targets: seq<u16>)

  predicate EngineOk(e: Engine)
  {
    ChannelsOk(e.channels) && |e.targets| == MAX_CHANNEL_VOICES
  }

  /** `channel_update_CCR`: CHANNEL1 drives CCR4 of TIM3, CHANNEL2..CHANNEL4
      drive CCR1..CCR3 of TIM3, and CHANNEL5..CHANNEL7 drive CCR1..CCR3 of
      TIM4; any other value writes nothing. */
  function CcrOf(id: int): (r: Option<Register>)
    ensures r.Some? <==> 0 <= id < NUM_CHANNELS
    ensures id == 0 ==> r == Some(Ccr(3, 4))
    ensures 1 <= id <= 3 ==> r == Some(Ccr(3, id))
    ensures 4 <= id <= 6 ==> r == Some(Ccr(4, id - 3))
  {
    if id == 0 then Some(Ccr(3, 4))
    else if 1 <= id <= 3 then Some(Ccr(3, id))
    else if 4 <= id <= 6 then Some(Ccr(4, id - 3))
    else None
  }

  /** Distinct channels drive distinct registers. */
  lemma CcrInjective(a: int, b: int)
    requires 0 <= a < NUM_CHANNELS && 0 <= b < NUM_CHANNELS && a != b
    ensures CcrOf(a) != CcrOf(b)
  {
  }

  // ---- one voice ----

  /** The sample a voice contributes to its channel's mix. The persistent
      target is passed as zero, since it never reaches the output
      (ChannelVoice.OutputIgnoresTarget). */
  function VoiceOutput(rom: Rom, data: Wave, v: Voice): (r: u32)
    requires PlaysTable(rom, data)
    ensures v.onOff == 0 && v.adsr != Attack ==> r == 0
    ensures v.adsr == Sustain ==> r == 0
  {
    VoiceTick(rom, data, v, 0).output
  }

  /** `calculate_voice_output` for voice `v` of channel `c`, with channel 1's
      targets `targets`: the sample of that voice, and the targets afterwards.
      ATTACK writes the velocity's target and DECAY writes ADSR_MID into slot
      `v`, whatever channel `c` is; nothing else is kept. */
  method CalculateVoiceOutput(rom: Rom, c: Channel, targets: seq<u16>, v: nat)
    returns (output: u32, targets': seq<u16>)
    requires RomOk(rom) && ChannelOk(c) && |targets| == MAX_CHANNEL_VOICES && v < MAX_CHANNEL_VOICES
    ensures output == VoiceOutput(rom, c.data, c.voices[v])
    ensures |targets'| == MAX_CHANNEL_VOICES
    ensures forall i :: 0 <= i < MAX_CHANNEL_VOICES && i != v ==> targets'[i] == targets[i]
    ensures var w := c.voices[v];
      (w.onOff == 0 && w.adsr != Attack) || w.adsr == Sustain || w.adsr == Release ==> targets' == targets
    ensures var w := c.voices[v];
      w.adsr == Attack ==> targets'[v] == AttackTarget(w.velocity)
    ensures var w := c.voices[v];
      w.onOff != 0 && w.adsr == Decay ==> targets'[v] == ADSR_MID
  {
    var w := c.voices[v];
    var t := VoiceTick(rom, c.data, w, targets[v]);
    OutputIgnoresTarget(rom, c.data, w, 0, targets[v]);
    output := t.output;
    if (w.onOff == 0 && w.adsr != Attack) || w.adsr == Sustain || w.adsr == Release {
      targets' := targets;
    } else {
      targets' := targets[v := t.target];
    }
  }

  // ---- one channel ----

  /** The samples of a channel's four voices, in voice order. */
  function Outputs(rom: Rom, c: Channel): (r: seq<u32>)
    requires RomOk(rom) && ChannelOk(c)
    ensures |r| == MAX_CHANNEL_VOICES
    ensures forall i :: 0 <= i < MAX_CHANNEL_VOICES ==> r[i] == VoiceOutput(rom, c.data, c.voices[i])
  {
    seq(MAX_CHANNEL_VOICES, i requires 0 <= i < MAX_CHANNEL_VOICES => VoiceOutput(rom, c.data, c.voices[i]))
  }

  /** Samples added one after another in 32 bits, as the `sum` variable of
      `channel_update` accumulates them. */
  function Mix(samples: seq<u32>): (r: u32)
    ensures Sum(samples) < WORD ==> r == Sum(samples)
  {
    if |samples| == 0 then 0
    else (Mix(samples[..|samples| - 1]) + samples[|samples| - 1]) % WORD
  }

  /** The mathematical sum of the samples. */
  function Sum(samples: seq<u32>): (r: nat)
  {
    if |samples| == 0 then 0 else Sum(samples[..|samples| - 1]) + samples[|samples| - 1]
  }

  /** The mix of a prefix one longer adds one more sample. */
  lemma MixSnoc(samples: seq<u32>, n: nat)
    requires 1 <= n <= |samples|
    ensures Mix(samples[..n]) == (Mix(samples[..n - 1]) + samples[n - 1]) % WORD
  {
    assert samples[..n][..n - 1] == samples[..n - 1];
  }

  /** The 32-bit running sum is the true sum reduced modulo 2^32. */
  lemma {:induction false} MixIsSumModWord(samples: seq<u32>)
    ensures Mix(samples) == Sum(samples) % WORD
  {
    if |samples| > 0 {
      var init := samples[..|samples| - 1];
      MixIsSumModWord(init);
      ModAddLeft(Sum(init), samples[|samples| - 1], WORD);
    }
  }

  /** Silent voices add nothing. */
  lemma {:induction false} MixOfZeros(samples: seq<u32>)
    requires forall i :: 0 <= i < |samples| ==> samples[i] == 0
    ensures Mix(samples) == 0
  {
    if |samples| > 0 {
      MixOfZeros(samples[..|samples| - 1]);
    }
  }

  /** A channel whose first `n` voices are closed and past their attack
      mixes to zero. */
  lemma MixSilent(rom: Rom, c: Channel, n: nat)
    requires RomOk(rom) && ChannelOk(c) && n <= MAX_CHANNEL_VOICES
    requires forall i :: 0 <= i < n ==> c.voices[i].onOff == 0 && c.voices[i].adsr != Attack
    ensures Mix(Outputs(rom, c)[..n]) == 0
  {
    MixOfZeros(Outputs(rom, c)[..n]);
  }

  /** What `channel_update` writes for a channel: nothing while disabled;
      otherwise the 32-bit mix of its `num_voices` voices divided by
      `active_voices` and stored in a uint16_t, to the channel's own register.
      A zero divisor is undefined, and so is a `num_voices` above the voices
      array. */
  function ChannelOut(rom: Rom, c: Channel): (r: Out)
    requires RomOk(rom) && ChannelOk(c)
    ensures c.enable == 0 ==> r == NoWrite
    ensures r == Undefined <==> c.enable != 0 && (c.activeVoices == 0 || c.numVoices > MAX_CHANNEL_VOICES)
    ensures r == NoWrite <==> c.enable == 0 || (c.activeVoices != 0 && c.numVoices <= MAX_CHANNEL_VOICES && CcrOf(c.id).None?)
    ensures r.Write? ==> Some(r.target) == CcrOf(c.id) && r.value < 0x1_0000
    ensures r.Write? ==> r.value == Sum(Outputs(rom, c)[..c.numVoices]) % WORD / c.activeVoices % 0x1_0000
  {
    if c.enable == 0 then NoWrite
    else if c.numVoices > MAX_CHANNEL_VOICES || c.activeVoices == 0 then Undefined
    else
      WriteTo(CcrOf(c.id), Sum(Outputs(rom, c)[..c.numVoices]) % WORD / c.activeVoices % 0x1_0000)
  }

  /** The `for` loop of `channel_update`: voices `0 .. n - 1` of channel `c`
      are stepped in order, each seeing the targets the previous one left,
      and their samples are added in 32 bits. The ghost `outs` names the
      four voices' samples up front, so that the loop can be stated without
      recomputing them. */
  method SumVoices(rom: Rom, c: Channel, targets: seq<u16>, n: nat, ghost outs: seq<u32>)
    returns (sum: u32, targets': seq<u16>)
    requires RomOk(rom) && ChannelOk(c) && |targets| == MAX_CHANNEL_VOICES && n <= MAX_CHANNEL_VOICES
    requires |outs| == MAX_CHANNEL_VOICES
    requires forall i {:trigger VoiceOutput(rom, c.data, c.voices[i])} ::
      0 <= i < MAX_CHANNEL_VOICES ==> outs[i] == VoiceOutput(rom, c.data, c.voices[i])
    ensures sum == Mix(outs[..n])
    ensures |targets'| == MAX_CHANNEL_VOICES
    ensures forall i :: n <= i < MAX_CHANNEL_VOICES ==> targets'[i] == targets[i]
  {
    sum, targets' := 0, targets;
    var i: nat := 0;
    while i < n
      invariant i <= n
      invariant |targets'| == MAX_CHANNEL_VOICES
      invariant forall j :: i <= j < MAX_CHANNEL_VOICES ==> targets'[j] == targets[j]
      invariant sum == Mix(outs[..i])
    {
      var o;
      o, targets' := CalculateVoiceOutput(rom, c, targets', i);
      MixSnoc(outs, i + 1);
      sum := (sum + o) % WORD;
      i := i + 1;
    }
  }

  /** `channel_update` for channel `k`: its voices are summed, and the sum is
      divided and written as ChannelOut describes. */
  method ChannelUpdate(rom: Rom, e: Engine, k: nat) returns (out: Out, targets: seq<u16>)
    requires RomOk(rom) && EngineOk(e) && k < NUM_CHANNELS
    ensures |targets| == MAX_CHANNEL_VOICES
    ensures out == ChannelOut(rom, e.channels[k])
    ensures e.channels[k].enable == 0 ==> targets == e.targets
  {
    var c := e.channels[k];
    targets := e.targets;
    if c.enable == 0 {
      return NoWrite, targets;
    }
    if c.numVoices as nat > MAX_CHANNEL_VOICES {
      return Undefined, targets;
    }
    var sum;
    sum, targets := SumVoices(rom, c, targets, c.numVoices as nat, Outputs(rom, c));
    if c.activeVoices == 0 {
      return Undefined, targets;
    }
    MixIsSumModWord(Outputs(rom, c)[..c.numVoices]);
    out := WriteTo(CcrOf(c.id), sum / c.activeVoices % 0x1_0000);
  }

  // ---- all channels ----

  /** `channel_update_all`: channel 1 to channel 7, one after another. The
      channels come out unchanged and each writes what its own state
      describes, so a tick leaves nothing behind that changes the next
      tick's writes: only channel 1's targets move. */
  method UpdateAll(rom: Rom, e: Engine) returns (outs: seq<Out>, e': Engine)
    requires RomOk(rom) && EngineOk(e)
    ensures EngineOk(e') && e'.channels == e.channels
    ensures |outs| == NUM_CHANNELS
    ensures forall k :: 0 <= k < NUM_CHANNELS ==> outs[k] == ChannelOut(rom, e.channels[k])
  {
    ghost var want := seq(NUM_CHANNELS, j requires 0 <= j < NUM_CHANNELS => ChannelOut(rom, e.channels[j]));
    outs := [];
    e' := e;
    var k: nat := 0;
    while k < NUM_CHANNELS
      invariant k <= NUM_CHANNELS && |outs| == k
      invariant EngineOk(e') && e'.channels == e.channels
      invariant outs == want[..k]
    {
      var out, targets := ChannelUpdate(rom, e', k);
      assert want[..k + 1] == want[..k] + [out];
      outs := outs + [out];
      e' := e'.(targets := targets);
      k := k + 1;
    }
  }

  // ---- control functions ----

  /** The struct `channel_enable` and `channel_disable` write for a channel_t
      value: CHANNEL5..CHANNEL7 reach channel1_state..channel3_state. */
  function EnableSlot(channel: int): (r: Option<nat>)
    ensures r.Some? <==> 0 <= channel < NUM_CHANNELS
    ensures 0 <= channel <= 3 ==> r == Some(channel)
    ensures 4 <= channel <= 6 ==> r == Some(channel - 4)
  {
    if 0 <= channel <= 3 then Some(channel)
    else if 4 <= channel <= 6 then Some(channel - 4)
    else None
  }

  /** The table `channel_set_waveform` installs: SINE..SQUARE each select their
      own table; NOISE or an unknown value selects none. */
  function TableOf(wave: int): (r: Option<Wave>)
    ensures r.Some? <==> 0 <= wave <= 3
    ensures r.Some? ==> r == WaveOf(wave) && r.value != Noise
  {
    match WaveOf(wave)
    case Some(w) => if w == Noise then None else Some(w)
    case None => None
  }

  /** The voice control calls, by what they pass besides channel and voice. */
  datatype VoiceCall = On | Off | Frequency(freq: u16) | Modulation(modulation: u16) | Velocity(velocity: u8)

  /** The control calls of channel_driver.c. */
  datatype Call =
    | Enable(channel: int)
    | Disable(channel: int)
    | SetWaveform(channel: int, wave: int)
    | Volume(channel: int, volume: u8)
    | VoiceControl(channel: int, voice: u8, call: VoiceCall)

  /** A voice call on a voice of channel `slot`. `channel_voice_on` opens the
      gate and restarts the phase, modulation and envelope counters, and for
      CHANNEL1 alone also clears env_start; `channel_voice_velocity` writes
      the modulation depth and leaves the velocity as it was. */
  function VoiceUpdate(w: Voice, slot: nat, call: VoiceCall): (r: Voice)
    ensures call == On ==> r.onOff == 1 && r.count == 0 && r.modCount == 0 && r.envCount == 0
    ensures call == On ==> r.envStart == (if slot == 0 then 0 else w.envStart)
    ensures call == On ==> r.(onOff := w.onOff, count := w.count, modCount := w.modCount,
                              envCount := w.envCount, envStart := w.envStart) == w
    ensures call == Off ==> r.onOff == 0 && r.(onOff := w.onOff) == w
    ensures call.Frequency? ==> r.frequency == call.freq && r.(frequency := w.frequency) == w
    ensures call.Modulation? ==> r.mod == call.modulation && r.(mod := w.mod) == w
    ensures call.Velocity? ==> r.mod == call.velocity && r.velocity == w.velocity && r.(mod := w.mod) == w
  {
    match call
    case On =>
      var u := w.(onOff := 1, count := 0, modCount := 0, envCount := 0);
      if slot == 0 then u.(envStart := 0) else u
    case Off => w.(onOff := 0)
    case Frequency(f) => w.(frequency := f)
    case Modulation(m) => w.(mod := m)
    case Velocity(vel) => w.(mod := vel)
  }

  /** `rs` equals `cs` everywhere except possibly at index `k`. */
  predicate OnlyAt<T(==)>(cs: seq<T>, rs: seq<T>, k: nat)
  {
    |rs| == |cs| && forall j :: 0 <= j < |cs| && j != k ==> rs[j] == cs[j]
  }

  /** `channel_enable` (`on`) or `channel_disable`: the `enable` flag of the
      struct EnableSlot picks; a channel value outside CHANNEL1..CHANNEL7
      writes nothing. */
  function SetEnable(cs: seq<Channel>, channel: int, on: bool): (r: seq<Channel>)
    requires ChannelsOk(cs)
    ensures ChannelsOk(r)
    ensures EnableSlot(channel).None? ==> r == cs
    ensures EnableSlot(channel).Some? ==> var k := EnableSlot(channel).value;
      OnlyAt(cs, r, k) && r[k].enable == (if on then 1 else 0) && r[k].(enable := cs[k].enable) == cs[k]
  {
    match EnableSlot(channel)
    case None => cs
    case Some(k) => cs[k := cs[k].(enable := if on then 1 else 0)]
  }

  /** `channel_set_waveform`: SINE..SQUARE set both the tag and the table of
      channelN_state; NOISE, an unknown table or an unknown channel writes
      nothing. */
  function SetWaveformOf(cs: seq<Channel>, channel: int, wave: int): (r: seq<Channel>)
    requires ChannelsOk(cs)
    ensures ChannelsOk(r)
    ensures TableOf(wave).None? || !(0 <= channel < NUM_CHANNELS) ==> r == cs
    ensures TableOf(wave).Some? && 0 <= channel < NUM_CHANNELS ==>
      && OnlyAt(cs, r, channel) && r[channel].waveform == r[channel].data == TableOf(wave).value
      && r[channel].(waveform := cs[channel].waveform, data := cs[channel].data) == cs[channel]
  {
    match TableOf(wave)
    case None => cs
    case Some(w) =>
      if 0 <= channel < NUM_CHANNELS then cs[channel := cs[channel].(waveform := w, data := w)] else cs
  }

  /** `channel_volume`: the volume of channelN_state; an unknown channel
      writes nothing. */
  function SetVolume(cs: seq<Channel>, channel: int, volume: u8): (r: seq<Channel>)
    requires ChannelsOk(cs)
    ensures ChannelsOk(r)
    ensures !(0 <= channel < NUM_CHANNELS) ==> r == cs
    ensures 0 <= channel < NUM_CHANNELS ==>
      OnlyAt(cs, r, channel) && r[channel].volume == volume && r[channel].(volume := cs[channel].volume) == cs[channel]
  {
    if 0 <= channel < NUM_CHANNELS then cs[channel := cs[channel].(volume := volume)] else cs
  }

  /** The voice calls: one voice of channelN_state changes as VoiceUpdate
      says; an unknown channel or a voice at or above MAX_CHANNEL_VOICES
      writes nothing. */
  function SetVoice(cs: seq<Channel>, channel: int, voice: u8, call: VoiceCall): (r: seq<Channel>)
    requires ChannelsOk(cs)
    ensures ChannelsOk(r)
    ensures !(0 <= channel < NUM_CHANNELS) || voice as nat >= MAX_CHANNEL_VOICES ==> r == cs
    ensures 0 <= channel < NUM_CHANNELS && voice as nat < MAX_CHANNEL_VOICES ==>
      && OnlyAt(cs, r, channel)
      && r[channel].(voices := cs[channel].voices) == cs[channel]
      && OnlyAt(cs[channel].voices, r[channel].voices, voice as nat)
      && r[channel].voices[voice] == VoiceUpdate(cs[channel].voices[voice], channel, call)
  {
    if !(0 <= channel < NUM_CHANNELS) || voice as nat >= MAX_CHANNEL_VOICES then cs
    else
      var c := cs[channel];
      cs[channel := c.(voices := c.voices[voice := VoiceUpdate(c.voices[voice], channel, call)])]
  }

  /** One control call applied to the channels. No call writes a channel's
      `id`, `num_voices` or `active_voices`. */
  function ApplyChannels(cs: seq<Channel>, call: Call): (r: seq<Channel>)
    requires ChannelsOk(cs)
    ensures ChannelsOk(r)
    ensures forall k :: 0 <= k < NUM_CHANNELS ==>
      r[k].id == cs[k].id && r[k].numVoices == cs[k].numVoices && r[k].activeVoices == cs[k].activeVoices
  {
    match call
    case Enable(ch) => SetEnable(cs, ch, true)
    case Disable(ch) => SetEnable(cs, ch, false)
    case SetWaveform(ch, wave) => SetWaveformOf(cs, ch, wave)
    case Volume(ch, vol) => SetVolume(cs, ch, vol)
    case VoiceControl(ch, v, vc) => SetVoice(cs, ch, v, vc)
  }

  /** A control call on the engine: channel 1's targets are not touched. */
  function Apply(e: Engine, call: Call): (r: Engine)
    requires EngineOk(e)
    ensures EngineOk(r) && r.targets == e.targets
    ensures r.channels == ApplyChannels(e.channels, call)
  {
    e.(channels := ApplyChannels(e.channels, call))
  }

  /** Enabling CHANNEL5..CHANNEL7 turns on channel1_state..channel3_state and
      leaves the TIM4 channel itself as it was. */
  lemma EnableReachesFirstBank(cs: seq<Channel>, channel: int)
    requires ChannelsOk(cs) && 4 <= channel <= 6
    ensures ApplyChannels(cs, Enable(channel))[channel - 4].enable == 1
    ensures ApplyChannels(cs, Enable(channel))[channel] == cs[channel]
  {
  }

  // ---- initialisation ----

  /** `reset_channel(channel, channel_num, num_voices)`. The loop runs over the
      unclamped `num_voices`, so a count above MAX_CHANNEL_VOICES writes past
      the voices array (None). The waveform tag and the other voice fields are
      kept. */
  function ResetChannel(c: Channel, id: int, n: u8): (r: Option<Channel>)
    requires ChannelOk(c)
    ensures r.Some? <==> n <= MAX_CHANNEL_VOICES
    ensures r.Some? ==> ChannelOk(r.value)
    ensures r.Some? ==> var d := r.value;
      && d.enable == 0 && d.volume == MIDI_MAX_VAL && d.data == Sine && d.id == id
      && d.activeVoices == 0 && d.numVoices == n && d.waveform == c.waveform
    ensures r.Some? ==> forall i :: 0 <= i < MAX_CHANNEL_VOICES ==>
      (i < n ==> r.value.voices[i] == c.voices[i].(count := 0, frequency := 0, pitchBend := 0,
                                                   velocity := 64, onOff := 0, adsr := Attack)) &&
      (i >= n ==> r.value.voices[i] == c.voices[i])
  {
    if n > MAX_CHANNEL_VOICES then None
    else
      var vs := seq(MAX_CHANNEL_VOICES, i requires 0 <= i < MAX_CHANNEL_VOICES =>
        if i < n then c.voices[i].(count := 0, frequency := 0, pitchBend := 0, velocity := 64, onOff := 0, adsr := Attack)
        else c.voices[i]);
      Some(c.(enable := 0, volume := MIDI_MAX_VAL, data := Sine, id := id, activeVoices := 0,
              numVoices := n, voices := vs))
  }

  /** The `reset_channel` calls of `channel_timer_init`: four voices on
      CHANNEL1..CHANNEL4, one on CHANNEL5..CHANNEL7. Channel 1's targets are
      not reset. */
  function Init(e: Engine): (r: Engine)
    requires EngineOk(e)
    ensures EngineOk(r) && r.targets == e.targets
    ensures forall k :: 0 <= k < NUM_CHANNELS ==>
      r.channels[k].id == k && r.channels[k].enable == 0 && r.channels[k].activeVoices == 0 &&
      r.channels[k].data == Sine && r.channels[k].numVoices == (if k < 4 then 4 else 1)
  {
    e.(channels := seq(NUM_CHANNELS, k requires 0 <= k < NUM_CHANNELS =>
      ResetChannel(e.channels[k], k, if k < 4 then 4 else 1).value))
  }

  /** A sequence of control calls applied in order. No control call writes
      `active_voices` or channel 1's targets. */
  function ApplyAll(e: Engine, calls: seq<Call>): (r: Engine)
    requires EngineOk(e)
    ensures EngineOk(r) && r.targets == e.targets
    ensures forall k :: 0 <= k < NUM_CHANNELS ==> r.channels[k].activeVoices == e.channels[k].activeVoices
    decreases |calls|
  {
    if |calls| == 0 then e else ApplyAll(Apply(e, calls[0]), calls[1..])
  }

  /** `reset_channel` sets `active_voices` to zero and nothing sets it again;
      so after `channel_timer_init`, whatever calls follow, an enabled
      channel's update divides by zero. */
  lemma EnabledUpdateUndefinedAfterInit(rom: Rom, e: Engine, calls: seq<Call>, k: nat)
    requires RomOk(rom) && EngineOk(e) && k < NUM_CHANNELS
    requires ApplyAll(Init(e), calls).channels[k].enable != 0
    ensures ChannelOut(rom, ApplyAll(Init(e), calls).channels[k]) == Undefined
  {
  }
}
