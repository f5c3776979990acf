/** Definitions shared by every generation of the synthesizer firmware:
    C integer widths, the audio constants of audio_config.h, waveform tags,
    the output registers a channel update may write, and the read-only data
    (wavetables and two constants) whose headers are not part of this model. */
module Common {
  import opened Bits

  type u8 = x: int | 0 <= x < 0x100
  type u16 = x: int | 0 <= x < 0x1_0000
  type u32 = x: int | 0 <= x < 0x1_0000_0000

  /** 2^32: unsigned 32-bit arithmetic is arithmetic modulo WORD. */
  const WORD: nat := 0x1_0000_0000

  const SAMPLE_FREQUENCY: nat := 0x4000        // 1 << 14 samples per second
  const SAMPLE_FREQUENCY_MASK: nat := 0x3FFF   // SAMPLE_FREQUENCY - 1
  const MIDI_MAX_VAL: nat := 0x7F

  datatype Option<T> = None | Some(value: T) {
    predicate IsFailure() { None? }

    function PropagateFailure<U>(): Option<U>
      requires None?
    {
      None
    }

    function Extract(): T
      requires Some?
    {
      value
    }
  }

  /** waveforms_t. The table a channel reads is kept as the tag of that table. */
  datatype Wave = Sine | Trig | Ramp | Square | Noise

  /** The waveforms_t value passed by a caller, if it names an enumerator
      (WAVEFORM_SINE = 0 ... WAVEFORM_NOISE = 4). */
  function WaveOf(w: int): (r: Option<Wave>)
    ensures r.Some? <==> 0 <= w <= 4
    ensures r == Some(Square) <==> w == 3
    ensures r == Some(Noise) <==> w == 4
  {
    if w == 0 then Some(Sine)
    else if w == 1 then Some(Trig)
    else if w == 2 then Some(Ramp)
    else if w == 3 then Some(Square)
    else if w == 4 then Some(Noise)
    else None
  }

  /** A hardware output register: capture/compare register `index` of timer
      TIM`timer`, or the 12-bit right-aligned data register of DAC channel 1. */
  datatype Register = Ccr(timer: nat, index: nat) | Dac1

  /** What one update does to the output hardware. `Undefined` stands for an
      operation whose behaviour C leaves undefined (a shift by a negative
      count, a division by zero). */
  datatype Out = NoWrite | Write(target: Register, value: nat) | Undefined

  /** A write through a register-selection switch whose default case returns. */
  function WriteTo(reg: Option<Register>, value: nat): (r: Out)
    ensures r.Write? <==> reg.Some?
    ensures r.Write? ==> r.target == reg.value && r.value == value
    ensures r != Undefined
  {
    match reg
    case None => NoWrite
    case Some(g) => Write(g, value)
  }

  /** Read-only data the firmware includes from headers that are not part of
      this model: the wavetables, the envelope and modulation curves,
      SAMPLE_RESOLUTION_MASK and TWO_SEMITONE_SCALAR. Each firmware
      generation states what it needs of them. */
  datatype Rom = Rom(
    sine: seq<u16>, trig: seq<u16>, ramp: seq<u16>, square: seq<u16>, noise: seq<u16>,
    attack: seq<u16>, decay: seq<u16>, modulation: seq<int>,
    resolutionMask: nat, twoSemitone: nat)

  /** The `unsigned short` table a waveform tag points at. */
  function Table(rom: Rom, w: Wave): seq<u16>
  {
    match w
    case Sine => rom.sine
    case Trig => rom.trig
    case Ramp => rom.ramp
    case Square => rom.square
    case Noise => rom.noise
  }

  /** `while (x > limit) x -= step;` */
  function SubtractWhileAbove(x: nat, limit: nat, step: nat): (r: nat)
    requires 0 < step <= limit + 1
    ensures r <= limit && r <= x
    ensures x <= limit ==> r == x
    ensures x > limit ==> limit < r + step
    decreases x
  {
    if x > limit then SubtractWhileAbove(x - step, limit, step) else x
  }

  /** Taking one modulus away leaves the remainder as it was. */
  lemma ModMinus(x: nat, m: nat)
    requires m >= 1 && x >= m
    ensures (x - m) % m == x % m
  {
    var q, t := (x - m) / m, (x - m) % m;
    assert x - m == m * q + t;
    assert x == m * (q + 1) + t;
    ModUnique(x, m, q + 1, t);
  }

  /** Subtracting the modulus itself while above the mask is reduction modulo it. */
  lemma {:induction false} SubtractModulusIsMod(x: nat, m: nat)
    requires m >= 1
    ensures SubtractWhileAbove(x, m - 1, m) == x % m
    decreases x
  {
    if x > m - 1 {
      SubtractModulusIsMod(x - m, m);
      ModMinus(x, m);
    } else {
      ModUnique(x, m, 0, x);
    }
  }

  /** Wrapping to 32 bits first does not change a remainder modulo 2^14:
      2^14 divides 2^32. */
  lemma WordModSample(a: nat)
    ensures (a % WORD) % SAMPLE_FREQUENCY == a % SAMPLE_FREQUENCY
  {
    var q1, r1 := a / WORD, a % WORD;
    var q2, r2 := r1 / SAMPLE_FREQUENCY, r1 % SAMPLE_FREQUENCY;
    assert a == WORD * q1 + r1;
    assert r1 == SAMPLE_FREQUENCY * q2 + r2;
    assert a == SAMPLE_FREQUENCY * (0x4_0000 * q1 + q2) + r2;
    ModUnique(a, SAMPLE_FREQUENCY, 0x4_0000 * q1 + q2, r2);
  }

  /** Subtracting the mask (one less than the modulus) while above the mask:
      a value above the mask lands in 1..mask, on the residue modulo the mask,
      with the mask itself standing for residue 0. */
  lemma {:induction false} SubtractMaskClosedForm(x: nat, m: nat)
    requires m >= 1
    ensures SubtractWhileAbove(x, m, m) ==
      (if x <= m then x else if x % m == 0 then m else x % m)
    decreases x
  {
    if x > m {
      SubtractMaskClosedForm(x - m, m);
      ModMinus(x, m);
      if x - m < m {
        ModUnique(x - m, m, 0, x - m);
      } else if x - m == m {
        ModUnique(x - m, m, 1, 0);
      }
    }
  }

  /** `sample >> shift` for a non-negative sample and an int shift count: C leaves
      a negative count, or one of 32 or more, undefined. */
  function ShiftSample(sample: nat, shift: int): (r: Option<nat>)
    ensures r.Some? <==> 0 <= shift < 32
    ensures r.Some? ==> r.value <= sample
    ensures r.Some? ==> r.value == sample / Pow2(shift)
    ensures shift == 0 ==> r == Some(sample)
  {
    if 0 <= shift < 32 then
      ShiftRightIsDiv(sample, shift);
      Some(ShiftRight(sample, shift))
    else None
  }

  /** The volume attenuation `(MIDI_MAX_VAL - vol) >> 4` of the timer channels.
      The byte is promoted to int, so the difference is negative for a volume
      above 127, and GCC shifts a negative int arithmetically (rounding toward
      negative infinity), which is what Dafny's `/` does. */
  function VolumeShift(vol: u8): (r: int)
    ensures vol <= MIDI_MAX_VAL ==> 0 <= r <= 7 && 16 * r <= MIDI_MAX_VAL - vol < 16 * (r + 1)
    ensures vol == MIDI_MAX_VAL ==> r == 0
    ensures MIDI_MAX_VAL < vol < 144 ==> r == -1
    ensures vol >= 144 ==> r <= -2
  {
    (MIDI_MAX_VAL - vol) / 16
  }
}
