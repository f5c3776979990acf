/** The per-voice synthesis step of the H533 channel driver
    (`calculate_voice_output` in channel_driver.c): an ADSR envelope, a
    pitch-bend and modulation frequency delta in fixed point, a masked phase
    accumulator, and one table lookup scaled by the envelope.

    The C function works on a copy of the voice. The copy after the step is
    returned here as `local` so that its contents can be stated; the driver
    discards it, exactly as the C code does. */
module ChannelVoice {
  import opened Bits
  import opened Common

  const MAX_CHANNEL_VOICES: nat := 4
  /** The envelope levels, in 1/1024 units (compile-time casts of 0.4 * 1024 and 0.7 * 1024). */
  const ADSR_MIN: nat := 409
  const ADSR_MID: nat := 716
  const ADSR_MAX: nat := 1024
  const ADSR_RANGE: nat := 615
  /** `pitch_bend` value for which no bend is computed: 1 << 6. */
  const PITCH_NEUTRAL: nat := 64
  /** `count >> CHANNEL_SAMPLING_VS_RESOLUTION_DIFF`: 1 << 6 phase steps per table entry. */
  const RESOLUTION_STEP: nat := 64
  /** `env_count >> CHANNEL_SAMPLING_VS_ENVELOPE_DIFF`: 1 << 4 envelope steps per curve entry. */
  const ENVELOPE_STEP: nat := 16

  datatype Adsr = Attack | Decay | Sustain | Release

  /** voice_t without its `env_target` field. The driver reads and writes
      only channel 1's `env_target`s, whatever channel a voice belongs to, so
      those four values are kept apart from the voices (the `target0`
      parameters here, ChannelDriver.Engine's `targets`). */
  datatype Voice = Voice(
    count: u32, frequency: u32, pitchBend: u16, modCount: u32, mod: u16, onOff: u8,
    adsr: Adsr, envCount: u32, env: u32, envStart: u16, velocity: u8)

  /** What the firmware needs of the tables its headers define: the four
      waveform tables cover every index `count >> 6` of a masked counter, the
      envelope curves cover every index `env_count >> 4` up to
      SAMPLE_RESOLUTION_MASK and are 10-bit, the modulation curve covers every
      masked modulation counter. */
  predicate RomOk(rom: Rom)
  {
    && |rom.sine| >= 256 && |rom.trig| >= 256 && |rom.ramp| >= 256 && |rom.square| >= 256
    && |rom.attack| > rom.resolutionMask / ENVELOPE_STEP
    && |rom.decay| > rom.resolutionMask / ENVELOPE_STEP
    && (forall i :: 0 <= i < |rom.attack| ==> rom.attack[i] < ADSR_MAX)
    && (forall i :: 0 <= i < |rom.decay| ==> rom.decay[i] < ADSR_MAX)
    && |rom.modulation| >= 256
    && rom.twoSemitone < 0x8000_0000
  }

  /** The table a voice plays: any waveform but noise, which this driver never installs. */
  predicate PlaysTable(rom: Rom, data: Wave)
  {
    RomOk(rom) && data != Noise
  }

  // ---- the envelope ----

  /** The target written while in ATTACK, `ADSR_RANGE * 1016 * velocity + ADSR_MIN`
      stored in a uint16_t. The product passes 16 bits already at velocity 1,
      so the stored target keeps only 35016 * velocity + 409 modulo 2^16: it is
      ADSR_MIN at velocity 0, always 1 modulo 8, and not monotone in the velocity. */
  function AttackTarget(velocity: u8): (r: u16)
    ensures r == (35016 * velocity + ADSR_MIN) % 0x1_0000
    ensures velocity == 0 ==> r == ADSR_MIN
    ensures r % 8 == 1
  {
    var x := 35016 * velocity + ADSR_MIN;
    var q, r0 := x / 0x1_0000, x % 0x1_0000;
    assert ADSR_RANGE * 1016 * velocity + ADSR_MIN == 0x1_0000 * (q + 9 * velocity) + r0;
    ModUnique(ADSR_RANGE * 1016 * velocity + ADSR_MIN, 0x1_0000, q + 9 * velocity, r0);
    var k := 4377 * velocity + 51 - 8192 * q;
    assert r0 == 8 * k + 1;
    ModUnique(r0, 8, k, 1);
    (ADSR_RANGE * 1016 * velocity + ADSR_MIN) % 0x1_0000
  }

  /** A louder note can get a lower attack target: velocity 2 stores a
      smaller target than velocity 1. */
  lemma AttackTargetWraps()
    ensures AttackTarget(1) == 35425 && AttackTarget(2) == 4905
    ensures AttackTarget(2) < AttackTarget(1)
  {
  }

  /** The stage an envelope moves to once its counter passes SAMPLE_RESOLUTION_MASK. */
  function NextStage(a: Adsr): Adsr
  {
    match a
    case Attack => Decay
    case Decay => Sustain
    case Sustain => Sustain
    case Release => Attack
  }

  /** Whether the incremented envelope counter passes SAMPLE_RESOLUTION_MASK:
      exactly when the counter has reached the mask, except that a counter at
      2^32 - 1 wraps to 0 and never finishes. */
  function Finishes(rom: Rom, v: Voice): (r: bool)
    ensures v.envCount + 1 < WORD ==> (r <==> v.envCount >= rom.resolutionMask)
    ensures v.envCount + 1 == WORD ==> !r
  {
    (v.envCount + 1) % WORD > rom.resolutionMask
  }

  /** The voice copy after the ADSR switch, the `envelope` scalar it computed,
      and `channel1_state.voices[voice].env_target` afterwards. */
  datatype EnvStep = EnvStep(voice: Voice, envelope: u32, target: u16)

  /** The ATTACK case: the target is recomputed from the velocity, and the
      envelope rises from ADSR_MIN along the attack curve. */
  function AttackStep(rom: Rom, v: Voice): (r: EnvStep)
    requires RomOk(rom)
    ensures r.target == AttackTarget(v.velocity)
    ensures Finishes(rom, v) ==>
      r == EnvStep(v.(adsr := Decay, envCount := 0, envStart := r.target), 0, r.target)
    ensures !Finishes(rom, v) ==> r.voice == v.(envCount := (v.envCount + 1) % WORD)
    ensures !Finishes(rom, v) && v.velocity <= MIDI_MAX_VAL ==> ADSR_MIN <= r.envelope <= ADSR_MAX
  {
    var target := AttackTarget(v.velocity);
    var ec := (v.envCount + 1) % WORD;
    if ec > rom.resolutionMask then
      EnvStep(v.(adsr := Decay, envCount := 0, envStart := target), 0, target)
    else
      var a := rom.attack[ec / ENVELOPE_STEP];
      EnvStep(v.(envCount := ec), AttackLevel(a, v.velocity), target)
  }

  /** `((ADSR_RANGE * a * velocity) >> 17) + ADSR_MIN`. */
  function AttackLevel(a: u16, velocity: u8): (r: u32)
    requires a < ADSR_MAX
    ensures velocity <= MIDI_MAX_VAL ==> ADSR_MIN <= r <= ADSR_MAX
    ensures ADSR_MIN <= r
  {
    AttackProduct(a, velocity) / 0x2_0000 + ADSR_MIN
  }

  /** `ADSR_RANGE * a * velocity` for a 10-bit curve value and a velocity byte,
      as an int that cannot overflow. */
  function AttackProduct(a: nat, velocity: u8): (p: nat)
    requires a < ADSR_MAX
    ensures p <= ADSR_RANGE * 1023 * 255
    ensures velocity <= MIDI_MAX_VAL ==> p <= ADSR_RANGE * 1023 * MIDI_MAX_VAL
  {
    var x := ADSR_RANGE * velocity;
    MulMono(a, 1023, x);
    a * x
  }

  /** The DECAY case: the target is ADSR_MID, and the envelope moves from
      env_start toward it along the decay curve. */
  function DecayStep(rom: Rom, v: Voice): (r: EnvStep)
    requires RomOk(rom)
    ensures r.target == ADSR_MID
    ensures Finishes(rom, v) ==>
      r == EnvStep(v.(adsr := Sustain, envCount := 0, envStart := ADSR_MID), 0, ADSR_MID)
    ensures !Finishes(rom, v) ==> r.voice == v.(envCount := (v.envCount + 1) % WORD)
    ensures !Finishes(rom, v) && v.envStart >= ADSR_MID ==> ADSR_MID <= r.envelope <= v.envStart
    ensures !Finishes(rom, v) && v.envStart < ADSR_MID ==> v.envStart <= r.envelope <= ADSR_MID
  {
    var ec := (v.envCount + 1) % WORD;
    if ec > rom.resolutionMask then
      EnvStep(v.(adsr := Sustain, envCount := 0, envStart := ADSR_MID), 0, ADSR_MID)
    else
      EnvStep(v.(envCount := ec), DecayLevel(v.envStart, rom.decay[ec / ENVELOPE_STEP]), ADSR_MID)
  }

  /** `((int32_t)(env_start - ADSR_MID) * d >> 10) + ADSR_MID` stored in a uint32_t. */
  function DecayLevel(start: u16, d: u16): (r: u32)
    requires d < ADSR_MAX
    ensures start >= ADSR_MID ==> ADSR_MID <= r <= start
    ensures start < ADSR_MID ==> start <= r <= ADSR_MID
  {
    var diff: int := start - ADSR_MID;
    ScaleTowardZero(diff, d);
    (diff * d / 1024 + ADSR_MID) % WORD
  }

  /** The RELEASE case: the envelope falls from env_start along the decay
      curve; on completion the voice restarts its attack from the persistent
      target. */
  function ReleaseStep(rom: Rom, v: Voice, target0: u16): (r: EnvStep)
    requires RomOk(rom)
    ensures r.target == target0
    ensures Finishes(rom, v) ==>
      r == EnvStep(v.(adsr := Attack, envCount := 0, envStart := target0), 0, target0)
    ensures !Finishes(rom, v) ==> r.voice == v.(envCount := (v.envCount + 1) % WORD)
    ensures !Finishes(rom, v) ==> r.envelope <= v.envStart
  {
    var ec := (v.envCount + 1) % WORD;
    if ec > rom.resolutionMask then
      EnvStep(v.(adsr := Attack, envCount := 0, envStart := target0), 0, target0)
    else
      var d := rom.decay[ec / ENVELOPE_STEP];
      ScaleTowardZero(v.envStart, d);
      EnvStep(v.(envCount := ec), v.envStart * d / 1024, target0)
  }

  /** The ADSR switch of `calculate_voice_output`; `target0` is the
      persistent `channel1_state.voices[voice].env_target` before the call. */
  function Envelope(rom: Rom, v: Voice, target0: u16): (r: EnvStep)
    requires RomOk(rom)
    ensures v.adsr == Sustain ==> r == EnvStep(v, 0, target0)
    ensures v.adsr != Sustain && Finishes(rom, v) ==>
      r.envelope == 0 &&
      r.voice == v.(adsr := NextStage(v.adsr), envCount := 0, envStart := r.target)
    ensures v.adsr != Sustain && !Finishes(rom, v) ==> r.voice == v.(envCount := (v.envCount + 1) % WORD)
    ensures && r.voice.count == v.count && r.voice.frequency == v.frequency
            && r.voice.pitchBend == v.pitchBend && r.voice.modCount == v.modCount && r.voice.mod == v.mod
    ensures v.adsr == Attack ==> r == AttackStep(rom, v)
    ensures v.adsr == Decay ==> r == DecayStep(rom, v)
    ensures v.adsr == Release ==> r == ReleaseStep(rom, v, target0)
  {
    match v.adsr
    case Sustain => EnvStep(v, 0, target0)
    case Attack => AttackStep(rom, v)
    case Decay => DecayStep(rom, v)
    case Release => ReleaseStep(rom, v, target0)
  }

  /** Scaling by a 10-bit curve value over 1024 (with C's flooring `>> 10`)
      moves a value toward zero and never past it. */
  lemma ScaleTowardZero(x: int, d: nat)
    requires d < ADSR_MAX
    ensures x >= 0 ==> 0 <= x * d / 1024 <= x
    ensures x < 0 ==> x <= x * d / 1024 <= 0
  {
    var q := x * d / 1024;
    assert x * d == 1024 * q + (x * d) % 1024;
    if x >= 0 {
      assert x * d <= x * 1024;
    } else {
      assert x * d >= x * 1024 by {
        assert x * d - x * 1024 == (-x) * (1024 - d);
      }
    }
  }

  // ---- the frequency delta ----

  /** The pitch-bend step of line 547 as a 32-bit value: the product is formed
      in unsigned 32-bit arithmetic (`frequency` is uint32_t), so a negative
      bend `(pitch_bend >> 7) - 64` wraps before the logical shift by 15. */
  function PitchTerm(rom: Rom, frequency: u32, pitchBend: u16): (r: u32)
    ensures pitchBend == PITCH_NEUTRAL ==> r == 0
    ensures pitchBend / 128 == PITCH_NEUTRAL ==> r == 0
    ensures r < 0x2_0000
  {
    if pitchBend == PITCH_NEUTRAL then 0
    else (frequency * rom.twoSemitone * (pitchBend / 128 - PITCH_NEUTRAL)) % WORD / 0x8000
  }

  /** The modulation counter after `mod_count++; mod_count &= SAMPLE_FREQUENCY_MASK`. */
  function NextModCount(modCount: u32): (r: u32)
    ensures r == (modCount + 1) % SAMPLE_FREQUENCY
    ensures r <= SAMPLE_FREQUENCY_MASK
  {
    AndLow14((modCount + 1) % WORD);
    WordModSample(modCount + 1);
    And((modCount + 1) % WORD, SAMPLE_FREQUENCY_MASK)
  }

  /** The modulation step of line 558 as a 32-bit value: the inner int product
      is shifted arithmetically by 16, then multiplied by the uint32_t
      frequency in 32 bits and shifted logically by 10. */
  function ModTerm(rom: Rom, frequency: u32, modCount: u32, mod: u16): (r: u32)
    requires RomOk(rom)
    ensures mod == 0 ==> r == 0
    ensures r < 0x40_0000
    ensures frequency == 0 ==> r == 0
  {
    if mod == 0 then 0
    else
      var mc := NextModCount(modCount);
      var inner: int := rom.modulation[mc / RESOLUTION_STEP] * rom.twoSemitone * (mod / 128) / 0x1_0000;
      assert frequency == 0 ==> frequency * inner == 0;
      WordShift10(frequency * inner)
  }

  /** An int product taken as a 32-bit pattern and shifted right logically by 10. */
  function WordShift10(x: int): (r: u32)
    ensures x == 0 ==> r == 0
    ensures r < 0x40_0000
  {
    x % WORD / 1024
  }

  /** The `int32_t frequency_delta`, as the 32-bit pattern the later unsigned
      addition uses. */
  function FrequencyDelta(rom: Rom, v: Voice): (r: u32)
    requires RomOk(rom)
    ensures v.pitchBend == PITCH_NEUTRAL && v.mod == 0 ==> r == 0
  {
    (PitchTerm(rom, v.frequency, v.pitchBend) + ModTerm(rom, v.frequency, v.modCount, v.mod)) % WORD
  }

  // ---- one tick of one voice ----

  /** `count += (frequency + frequency_delta); count &= SAMPLE_FREQUENCY_MASK`,
      with `frequency_delta` accumulated from the two terms in 32 bits. */
  function PhaseAdvance(count: u32, frequency: u32, pitch: u32, modulation: u32): (r: u32)
    ensures r == (count + frequency + pitch + modulation) % SAMPLE_FREQUENCY
    ensures r <= SAMPLE_FREQUENCY_MASK
  {
    var delta := (pitch + modulation) % WORD;
    var advanced := (count + (frequency + delta) % WORD) % WORD;
    AndLow14(advanced);
    PhaseSum(count, frequency, pitch + modulation);
    And(advanced, SAMPLE_FREQUENCY_MASK)
  }

  /** `(waveform_data[i] * envelope) >> 10` in 32 bits: the sample scaled by
      an envelope in 1/1024 units. */
  function Scale(sample: u16, envelope: u32): (r: u32)
    ensures envelope == 0 ==> r == 0
    ensures envelope <= ADSR_MAX ==> r <= sample
    ensures envelope == ADSR_MAX ==> r == sample
  {
    ScaledSample(sample, envelope);
    (sample * envelope) % WORD / 1024
  }

  /** The value `calculate_voice_output` returns, the envelope scalar it used,
      the voice copy after the call, and the persistent target afterwards. */
  datatype Tick = Tick(output: u32, envelope: u32, local: Voice, target: u16)

  /** The part of `calculate_voice_output` after the ADSR switch, given the
      switch's result `e`: the phase and modulation counters advance, and the
      table sample at the new phase is scaled by the envelope. */
  function Sound(rom: Rom, data: Wave, e: EnvStep): (r: Tick)
    requires PlaysTable(rom, data)
    ensures var w := e.voice;
      r.local.count == (w.count + w.frequency + PitchTerm(rom, w.frequency, w.pitchBend)
                        + ModTerm(rom, w.frequency, w.modCount, w.mod)) % SAMPLE_FREQUENCY
    ensures e.voice.pitchBend == PITCH_NEUTRAL && e.voice.mod == 0 ==>
      r.local.count == (e.voice.count + e.voice.frequency) % SAMPLE_FREQUENCY
    ensures r.local.count / RESOLUTION_STEP < |Table(rom, data)|
    ensures r.local.modCount == (if e.voice.mod != 0 then (e.voice.modCount + 1) % SAMPLE_FREQUENCY else e.voice.modCount)
    ensures r.local == e.voice.(count := r.local.count, modCount := r.local.modCount)
    ensures r.envelope == e.envelope && r.target == e.target
    ensures e.envelope <= ADSR_MAX ==> r.output <= Table(rom, data)[r.local.count / RESOLUTION_STEP]
    ensures e.envelope == ADSR_MAX ==> r.output == Table(rom, data)[r.local.count / RESOLUTION_STEP]
    ensures e.envelope == 0 ==> r.output == 0
  {
    var w := e.voice;
    var modCount := if w.mod != 0 then NextModCount(w.modCount) else w.modCount;
    var count := PhaseAdvance(w.count, w.frequency, PitchTerm(rom, w.frequency, w.pitchBend),
                              ModTerm(rom, w.frequency, w.modCount, w.mod));
    var sample := Table(rom, data)[count / RESOLUTION_STEP];
    Tick(Scale(sample, e.envelope), e.envelope, w.(count := count, modCount := modCount), e.target)
  }

  /** `calculate_voice_output` for one voice `v` playing table `data`: a
      closed voice past its attack is skipped; otherwise the envelope is
      stepped and the voice sounds. */
  function VoiceTick(rom: Rom, data: Wave, v: Voice, target0: u16): (r: Tick)
    requires PlaysTable(rom, data)
    ensures v.onOff == 0 && v.adsr != Attack ==> r == Tick(0, 0, v, target0)
    ensures !(v.onOff == 0 && v.adsr != Attack) ==>
      && r.local.count == (v.count + v.frequency + PitchTerm(rom, v.frequency, v.pitchBend)
                           + ModTerm(rom, v.frequency, v.modCount, v.mod)) % SAMPLE_FREQUENCY
      && r.local.count / RESOLUTION_STEP < |Table(rom, data)|
      && r.local.modCount == (if v.mod != 0 then (v.modCount + 1) % SAMPLE_FREQUENCY else v.modCount)
      && r.envelope == Envelope(rom, v, target0).envelope
      && r.target == Envelope(rom, v, target0).target
      && (r.envelope <= ADSR_MAX ==> r.output <= Table(rom, data)[r.local.count / RESOLUTION_STEP])
    ensures !(v.onOff == 0 && v.adsr != Attack) && v.pitchBend == PITCH_NEUTRAL && v.mod == 0 ==>
      r.local.count == (v.count + v.frequency) % SAMPLE_FREQUENCY
    ensures r.envelope == 0 ==> r.output == 0
    ensures v.adsr == Sustain ==> r.output == 0
    ensures v.adsr != Sustain && Finishes(rom, v) ==> r.output == 0
  {
    if v.onOff == 0 && v.adsr != Attack then Tick(0, 0, v, target0)
    else Sound(rom, data, Envelope(rom, v, target0))
  }

  /** Both 32-bit wraps of the phase update vanish modulo SAMPLE_FREQUENCY,
      which divides 2^32. */
  lemma PhaseSum(c: nat, f: nat, d: nat)
    ensures (c + (f + d % WORD) % WORD) % WORD % SAMPLE_FREQUENCY == (c + f + d) % SAMPLE_FREQUENCY
  {
    WordModSample(c + (f + d % WORD) % WORD);
    WordModSum(c, f + d % WORD);
    WordModSum(c + f, d);
  }

  /** Adding a value reduced modulo 2^32 is the same, modulo SAMPLE_FREQUENCY,
      as adding the value itself. */
  lemma WordModSum(a: nat, y: nat)
    ensures (a + y % WORD) % SAMPLE_FREQUENCY == (a + y) % SAMPLE_FREQUENCY
  {
    var q := y / WORD;
    assert y == WORD * q + y % WORD;
    var q2, r := (a + y % WORD) / SAMPLE_FREQUENCY, (a + y % WORD) % SAMPLE_FREQUENCY;
    assert a + y % WORD == SAMPLE_FREQUENCY * q2 + r;
    assert a + y == SAMPLE_FREQUENCY * (q2 + 0x4_0000 * q) + r;
    ModUnique(a + y, SAMPLE_FREQUENCY, q2 + 0x4_0000 * q, r);
  }

  /** A 16-bit sample times an envelope of at most 1024 fits 32 bits, and
      the `>> 10` brings it back to at most the sample. */
  lemma ScaledSample(sample: u16, envelope: nat)
    ensures envelope == 0 ==> (sample * envelope) % WORD / 1024 == 0
    ensures envelope <= ADSR_MAX ==> (sample * envelope) % WORD / 1024 <= sample
  {
    if envelope <= ADSR_MAX {
      MulMono(envelope, ADSR_MAX, sample);
      assert sample * envelope < WORD;
      DivMonotone(sample * envelope, sample * ADSR_MAX, 1024);
    }
  }

  /** The persistent target never influences the returned sample: it only
      reaches the discarded copy. */
  lemma OutputIgnoresTarget(rom: Rom, data: Wave, v: Voice, t1: u16, t2: u16)
    requires PlaysTable(rom, data)
    ensures VoiceTick(rom, data, v, t1).output == VoiceTick(rom, data, v, t2).output
  {
    if !(v.onOff == 0 && v.adsr != Attack) {
      var e1, e2 := Envelope(rom, v, t1), Envelope(rom, v, t2);
      assert e1.envelope == e2.envelope;
    }
  }
}
