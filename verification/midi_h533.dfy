/** Audio_Synthesizer_H533/Core/Src/midi.c: `set_midi` walks the receive
    buffer and turns note on / note off messages into calls on the channel
    1..4 timer driver; every other message is read and dropped. */
module MidiH533 {
  import opened Bits
  import opened Common
  import opened MidiStream
  import Channel1to4
  import TimerChannel

  const CHANNEL1: nat := 0
  const ON: u8 := 1
  const OFF: u8 := 0
  const FREQ_DEFAULT: u16 := 60
  /** FREQ_C2 .. FREQ_B2: the notes of octave 2, in Hz. */
  const OCTAVE2: seq<nat> := [65, 69, 73, 78, 82, 87, 93, 98, 104, 110, 117, 123]

  /** `set_channel`: the status byte masked with 0xF0 (not 0x0F), then
      CHANNEL1 unless the masked value lies in 0..8. The masked value is a
      multiple of 16, so the only in-range value is 0, which is CHANNEL1 as
      well: every byte selects CHANNEL1. (Whether `char` is signed makes no
      difference: a negative value also fails the range test.) */
  function SetChannel(b: u8): (r: nat)
    ensures r == CHANNEL1
  {
    var masked := And(b, 0xF0);
    AndHighNibble(b);
    if masked > 8 then CHANNEL1 else masked
  }

  /** The `while (key_num >= 12)` loop: the note within the octave and the
      number of octaves counted. */
  function OctaveSplit(key: nat, octave: nat): (r: (nat, nat))
    ensures r.0 == key % 12 && r.1 == octave + key / 12
    decreases key
  {
    if key >= 12 then OctaveSplit(key - 12, octave + 1) else (key, octave)
  }

  /** `midi_note_get_frequency`. `key_num -= 36` wraps in 16 bits, and the test
      that follows is `key_num > 0`, not a test for a key below C2: every key
      but 36 returns FREQ_DEFAULT, and key 36 reaches the octave loop with 0,
      which runs no iteration and returns FREQ_C2 unshifted. */
  function NoteFrequency(key: u16): (r: u16)
    ensures r == 65 <==> key == 36
    ensures r == FREQ_DEFAULT <==> key != 36
  {
    var k := (key - 36) % INDEX_RANGE;
    if k > 0 then FREQ_DEFAULT
    else
      var (note, octave) := OctaveSplit(k, 0);
      OCTAVE2[note] * Pow2(octave) % INDEX_RANGE
  }

  /** A call `set_midi` makes on the channel 1..4 driver: `channel1_4_on_off`,
      `channel1_4_frequency` or `channel1_4_volume`. */
  datatype Call = Call(channel: int, control: TimerChannel.Control)

  /** The three calls of a note message: the gate (ON for note on, OFF for
      note off) and the key's frequency on the channel `set_channel` chose,
      then the velocity as the volume of the literal CHANNEL1, truncated to
      the uint8_t parameter. */
  function NoteCalls(m: Msg, gate: u8): (r: seq<Call>)
    requires |m.body| == 2
    ensures |r| == 3
    ensures r[0] == Call(CHANNEL1, TimerChannel.SwitchGate(gate))
    ensures r[1] == Call(CHANNEL1, TimerChannel.SetFrequency(if m.body[0] % 128 == 36 then 65 else FREQ_DEFAULT))
    ensures r[2] == Call(CHANNEL1, TimerChannel.SetVolume(m.body[1] % 128))
  {
    var channel := SetChannel(m.status);
    var key := DataValue(m.body[0]);
    var velocity := DataValue(m.body[1]);
    [ Call(channel, TimerChannel.SwitchGate(gate)),
      Call(channel, TimerChannel.SetFrequency(NoteFrequency(key))),
      Call(CHANNEL1, TimerChannel.SetVolume(velocity % 0x100)) ]
  }

  /** The calls one message makes: note on and note off drive the timer
      channel; polyphonic key pressure, control change, program change,
      channel pressure, pitch bend and system messages only move the cursor
      (their fields go into copies that are thrown away). */
  function Dispatch(m: Msg): (r: seq<Call>)
    requires WellFormed(m)
    ensures StatusCode(m.status) == NOTE_ON_EVENT ==> r == NoteCalls(m, ON)
    ensures StatusCode(m.status) == NOTE_OFF_EVENT ==> r == NoteCalls(m, OFF)
    ensures StatusCode(m.status) != NOTE_ON_EVENT && StatusCode(m.status) != NOTE_OFF_EVENT ==> r == []
  {
    var code := StatusCode(m.status);
    if code == NOTE_ON_EVENT then NoteCalls(m, ON)
    else if code == NOTE_OFF_EVENT then NoteCalls(m, OFF)
    else []
  }

  function DispatchAll(ms: seq<Msg>): (r: seq<Call>)
    requires forall k :: 0 <= k < |ms| ==> WellFormed(ms[k])
    ensures NoteGroups(r)
    ensures |r| <= 3 * |ms|
  {
    if |ms| == 0 then []
    else
      var d, rest := Dispatch(ms[0]), DispatchAll(ms[1..]);
      NoteGroupsAppend(d, rest);
      d + rest
  }

  datatype Parsed = Parsed(index: u16, calls: seq<Call>, stop: Stop)

  /** `set_midi`, bounded by `steps` passes of its loop: the final cursor, the
      driver calls in the order made, and why the loop ended. Whatever the
      buffer holds, it only ever switches, tunes and sets the volume of
      CHANNEL1, in whole gate/frequency/volume groups, at most one group per
      message; it stops on a terminator only with 0x00 under the cursor. */
  function SetMidi(data: seq<u8>, index: u16, steps: nat): (r: Parsed)
    ensures r.index == Scan(data, index, steps).index && r.stop == Scan(data, index, steps).stop
    ensures NoteGroups(r.calls)
    ensures |r.calls| <= 3 * |Scan(data, index, steps).msgs|
    ensures r.stop == Terminator ==> r.index < |data| && data[r.index] == 0
    ensures r.stop == Spin ==> r.index < |data| && 0 < data[r.index] < 0x80
  {
    var s := Scan(data, index, steps);
    Parsed(s.index, DispatchAll(s.msgs), s.stop)
  }

  /** The calls come in groups of three, one group per note message, and each
      group is gate, frequency, volume, all on CHANNEL1, with a frequency of
      60 or 65 and a volume of at most 127. */
  predicate NoteGroups(calls: seq<Call>)
  {
    && |calls| % 3 == 0
    && forall g :: 0 <= g < |calls| / 3 ==>
      && calls[3 * g].channel == CHANNEL1 && calls[3 * g].control.SwitchGate?
      && calls[3 * g + 1].channel == CHANNEL1 && calls[3 * g + 1].control.SetFrequency?
      && calls[3 * g + 1].control.freq in {60, 65}
      && calls[3 * g + 2].channel == CHANNEL1 && calls[3 * g + 2].control.SetVolume?
      && calls[3 * g + 2].control.vol <= MIDI_MAX_VAL
  }

  lemma NoteGroupsAppend(a: seq<Call>, b: seq<Call>)
    requires NoteGroups(a) && NoteGroups(b)
    ensures NoteGroups(a + b)
  {
    var c := a + b;
    forall g | 0 <= g < |c| / 3
      ensures c[3 * g].channel == CHANNEL1 && c[3 * g].control.SwitchGate?
      ensures c[3 * g + 1].channel == CHANNEL1 && c[3 * g + 1].control.SetFrequency?
      ensures c[3 * g + 1].control.freq in {60, 65}
      ensures c[3 * g + 2].channel == CHANNEL1 && c[3 * g + 2].control.SetVolume?
      ensures c[3 * g + 2].control.vol <= MIDI_MAX_VAL
    {
      if g < |a| / 3 {
        assert c[3 * g] == a[3 * g] && c[3 * g + 1] == a[3 * g + 1] && c[3 * g + 2] == a[3 * g + 2];
      } else {
        var h := g - |a| / 3;
        assert 3 * g - |a| == 3 * h;
        assert c[3 * g] == b[3 * h] && c[3 * g + 1] == b[3 * h + 1] && c[3 * g + 2] == b[3 * h + 2];
      }
    }
  }

  /** A buffer holding well-formed messages and a terminator is parsed message
      by message: the calls are those of each message in turn, and the cursor
      ends on the terminator. */
  lemma SetMidiEncoded(data: seq<u8>, index: u16, ms: seq<Msg>, steps: nat)
    requires forall k :: 0 <= k < |ms| ==> WellFormed(ms[k])
    requires index + |EncodeAll(ms)| < |data| && index + |EncodeAll(ms)| < INDEX_RANGE
    requires data[index..index + |EncodeAll(ms)|] == EncodeAll(ms) && data[index + |EncodeAll(ms)|] == 0
    requires steps > |ms|
    ensures SetMidi(data, index, steps) == Parsed(index + |EncodeAll(ms)|, DispatchAll(ms), Terminator)
  {
    ScanEncoded(data, index, ms, steps);
  }

  /** The driver calls applied in order to the bank of channels 1..4. */
  function Perform(bank: seq<TimerChannel.State>, calls: seq<Call>): (r: seq<TimerChannel.State>)
    requires Channel1to4.BankOk(bank)
    ensures Channel1to4.BankOk(r)
    decreases |calls|
  {
    if |calls| == 0 then bank
    else Perform(Channel1to4.Command(bank, calls[0].channel, calls[0].control), calls[1..])
  }

  /** A lone note on message for key k with velocity v (both below 128)
      switches channel 1 on from the start of its table, at 65 Hz for key 36
      and 60 Hz otherwise, with volume v, and leaves channels 2..4 alone. */
  lemma NoteOnDrivesChannel1(bank: seq<TimerChannel.State>, status: u8, key: u8, velocity: u8)
    requires Channel1to4.BankOk(bank)
    requires StatusCode(status) == NOTE_ON_EVENT && key <= MIDI_MAX_VAL && velocity <= MIDI_MAX_VAL
    ensures var b := Perform(bank, Dispatch(Msg(status, [key, velocity])));
      && b[0] == bank[0].(onOff := 1, count := 0, freq := if key == 36 then 65 else 60, vol := velocity)
      && b[1..] == bank[1..]
  {
    var m := Msg(status, [key, velocity]);
    assert WellFormed(m);
    var cs := Dispatch(m);
    var b1 := Channel1to4.Command(bank, CHANNEL1, cs[0].control);
    var b2 := Channel1to4.Command(b1, CHANNEL1, cs[1].control);
    var b3 := Channel1to4.Command(b2, CHANNEL1, cs[2].control);
    assert Perform(bank, cs) == Perform(b1, cs[1..]);
    assert Perform(b1, cs[1..]) == Perform(b2, cs[2..]) by { assert cs[1..][1..] == cs[2..]; }
    assert Perform(b2, cs[2..]) == Perform(b3, []) by { assert cs[2..][1..] == []; }
  }
}
