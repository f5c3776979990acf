/** Audio_Synthesizer_F072/Src/midi.c: `get_midi` walks the receive buffer,
    lights an LED on note on for keys 0x24..0x27, writes a pin low on note
    off, and returns the MIDI record of the last note message. */
module MidiF072 {
  import opened Bits
  import opened Common
  import opened MidiStream

  /** GPIO_PIN_6 .. GPIO_PIN_9 of the HAL: one bit per pin. */
  const PIN_LED_RED: u16 := 0x0040
  const PIN_LED_BLUE: u16 := 0x0080
  const PIN_LED_ORANGE: u16 := 0x0100
  const PIN_LED_GREEN: u16 := 0x0200

  /** The port argument of HAL_GPIO_WritePin: PORT_LED (GPIOC), or a pin mask
      the note-off branches pass where a port pointer belongs. */
  datatype Port = LedPort | PinAsPort(pin: u16)

  /** One HAL_GPIO_WritePin(port, pin, level) call. */
  datatype Action = WritePin(port: Port, pin: u16, level: u8)

  /** The fields `get_midi` returns: those the note branches assign. */
  datatype Note = Note(channel: u16, keynumber: u16, velocity: u16)

  /** `set_channel` of this generation: the raw `status & 0xF0`, with no range
      check. (A signed `char` gives the same value after the mask.) */
  function SetChannel(b: u8): (r: u16)
    ensures r % 16 == 0 && r <= 0xF0
    ensures r == b - b % 16
  {
    AndHighNibble(b);
    And(b, 0xF0)
  }

  /** The three extractors of a note message: channel, key number, velocity. */
  function NoteOf(m: Msg): (r: Note)
    requires |m.body| == 2
    ensures r.channel == m.status - m.status % 16
    ensures r.keynumber == m.body[0] % 128 && r.velocity == m.body[1] % 128
  {
    Note(SetChannel(m.status), DataValue(m.body[0]), DataValue(m.body[1]))
  }

  /** The note-on branch: keys 0x24, 0x25, 0x26 and 0x27 set the red, green,
      blue and orange LED; any other key writes nothing. */
  function NoteOnAction(key: u16): (r: Option<Action>)
    ensures r.Some? <==> 0x24 <= key <= 0x27
    ensures r.Some? ==> r.value.port == LedPort && r.value.level == 1
    ensures r.Some? ==> r.value.pin == [PIN_LED_RED, PIN_LED_GREEN, PIN_LED_BLUE, PIN_LED_ORANGE][key - 0x24]
  {
    if key == 0x24 then Some(WritePin(LedPort, PIN_LED_RED, 1))
    else if key == 0x25 then Some(WritePin(LedPort, PIN_LED_GREEN, 1))
    else if key == 0x26 then Some(WritePin(LedPort, PIN_LED_BLUE, 1))
    else if key == 0x27 then Some(WritePin(LedPort, PIN_LED_ORANGE, 1))
    else None
  }

  /** The note-off branch: key 0x24 clears the red LED; keys 0x25..0x27 pass
      the green, blue or orange pin mask as the port and the red pin as the
      pin, so no LED of PORT_LED is written; any other key writes nothing. */
  function NoteOffAction(key: u16): (r: Option<Action>)
    ensures r.Some? <==> 0x24 <= key <= 0x27
    ensures r.Some? ==> r.value.pin == PIN_LED_RED && r.value.level == 0
    ensures r.Some? ==> (r.value.port == LedPort <==> key == 0x24)
  {
    if key == 0x24 then Some(WritePin(LedPort, PIN_LED_RED, 0))
    else if key == 0x25 then Some(WritePin(PinAsPort(PIN_LED_GREEN), PIN_LED_RED, 0))
    else if key == 0x26 then Some(WritePin(PinAsPort(PIN_LED_BLUE), PIN_LED_RED, 0))
    else if key == 0x27 then Some(WritePin(PinAsPort(PIN_LED_ORANGE), PIN_LED_RED, 0))
    else None
  }

  function Actions(a: Option<Action>): (r: seq<Action>)
    ensures a.None? ==> r == []
    ensures a.Some? ==> r == [a.value]
  {
    if a.Some? then [a.value] else []
  }

  /** What one message does: the GPIO writes it makes and, for a note message,
      the new record; the other types only move the cursor. */
  datatype Effect = Effect(actions: seq<Action>, note: Option<Note>)

  function Handle(m: Msg): (r: Effect)
    requires WellFormed(m)
    ensures StatusCode(m.status) == NOTE_ON_EVENT ==>
      r == Effect(Actions(NoteOnAction(NoteOf(m).keynumber)), Some(NoteOf(m)))
    ensures StatusCode(m.status) == NOTE_OFF_EVENT ==>
      r == Effect(Actions(NoteOffAction(NoteOf(m).keynumber)), Some(NoteOf(m)))
    ensures StatusCode(m.status) != NOTE_ON_EVENT && StatusCode(m.status) != NOTE_OFF_EVENT ==>
      r == Effect([], None)
  {
    var code := StatusCode(m.status);
    if code == NOTE_ON_EVENT then
      var n := NoteOf(m);
      Effect(Actions(NoteOnAction(n.keynumber)), Some(n))
    else if code == NOTE_OFF_EVENT then
      var n := NoteOf(m);
      Effect(Actions(NoteOffAction(n.keynumber)), Some(n))
    else Effect([], None)
  }

  /** A note on or note off message: the two types that assign the record. */
  predicate IsNote(m: Msg)
  {
    StatusCode(m.status) == NOTE_ON_EVENT || StatusCode(m.status) == NOTE_OFF_EVENT
  }

  datatype Parsed = Parsed(index: u16, actions: seq<Action>, last: Option<Note>, stop: Stop)

  /** The effects of a message sequence in order; `last` is the record before
      the first message (None: never assigned). Every message writes at most
      once, and the only low write to PORT_LED is to the red pin, so a green,
      blue or orange LED, once lit, is never turned off; without a note
      message the record stays as it was. */
  function HandleAll(ms: seq<Msg>, last: Option<Note>): (r: Effect)
    requires forall k :: 0 <= k < |ms| ==> WellFormed(ms[k])
    ensures forall a :: a in r.actions && a.port == LedPort && a.level == 0 ==> a.pin == PIN_LED_RED
    ensures |r.actions| <= |ms|
    ensures (forall k :: 0 <= k < |ms| ==> !IsNote(ms[k])) ==> r.note == last
    decreases |ms|
  {
    if |ms| == 0 then Effect([], last)
    else
      var e := Handle(ms[0]);
      var rest := HandleAll(ms[1..], if e.note.Some? then e.note else last);
      Effect(e.actions + rest.actions, rest.note)
  }

  /** `get_midi`, bounded by `steps` passes of its loop. The record starts
      uninitialised (None); only note on and note off assign it, so the record
      returned is that of the last note message parsed, or None. No parse
      turns off any LED but the red one. */
  function GetMidi(data: seq<u8>, index: u16, steps: nat): (r: Parsed)
    ensures r.index == Scan(data, index, steps).index && r.stop == Scan(data, index, steps).stop
    ensures r.stop == Terminator ==> r.index < |data| && data[r.index] == 0
    ensures forall a :: a in r.actions && a.port == LedPort && a.level == 0 ==> a.pin == PIN_LED_RED
    ensures |r.actions| <= |Scan(data, index, steps).msgs|
    ensures var ms := Scan(data, index, steps).msgs;
      || (r.last == None && forall k :: 0 <= k < |ms| ==> !IsNote(ms[k]))
      || exists k :: 0 <= k < |ms| && IsNote(ms[k]) && r.last == Some(NoteOf(ms[k]))
           && forall j :: k < j < |ms| ==> !IsNote(ms[j])
  {
    var s := Scan(data, index, steps);
    HandleAllLast(s.msgs, None);
    var e := HandleAll(s.msgs, None);
    Parsed(s.index, e.actions, e.note, s.stop)
  }

  /** The record after the first message is its own for a note message and
      the previous one otherwise. */
  lemma HandleAllCons(ms: seq<Msg>, last: Option<Note>)
    requires |ms| > 0 && forall k :: 0 <= k < |ms| ==> WellFormed(ms[k])
    ensures HandleAll(ms, last).note == HandleAll(ms[1..], if IsNote(ms[0]) then Some(NoteOf(ms[0])) else last).note
  {
  }

  /** The returned record is that of the last note message, and the record
      passed in when there was none. */
  lemma {:induction false} HandleAllLast(ms: seq<Msg>, last: Option<Note>)
    requires forall k :: 0 <= k < |ms| ==> WellFormed(ms[k])
    ensures var r := HandleAll(ms, last).note;
      || (r == last && forall k :: 0 <= k < |ms| ==> !IsNote(ms[k]))
      || exists k :: 0 <= k < |ms| && IsNote(ms[k]) && r == Some(NoteOf(ms[k]))
           && forall j :: k < j < |ms| ==> !IsNote(ms[j])
    decreases |ms|
  {
    if |ms| > 0 {
      var tail := ms[1..];
      var last' := if IsNote(ms[0]) then Some(NoteOf(ms[0])) else last;
      HandleAllCons(ms, last);
      HandleAllLast(tail, last');
      var r := HandleAll(tail, last').note;
      assert forall j :: 0 < j < |ms| ==> ms[j] == tail[j - 1];
      if r == last' && forall k :: 0 <= k < |tail| ==> !IsNote(tail[k]) {
        if IsNote(ms[0]) {
          assert forall j :: 0 < j < |ms| ==> !IsNote(ms[j]);
        } else {
          assert forall j :: 0 <= j < |ms| ==> !IsNote(ms[j]);
        }
      } else {
        var k :| 0 <= k < |tail| && IsNote(tail[k]) && r == Some(NoteOf(tail[k]))
          && forall j :: k < j < |tail| ==> !IsNote(tail[j]);
        assert ms[k + 1] == tail[k];
        assert forall j :: k + 1 < j < |ms| ==> !IsNote(ms[j]);
      }
    }
  }

  /** A buffer holding well-formed messages and a terminator is parsed message
      by message, with the cursor ending on the terminator. */
  lemma GetMidiEncoded(data: seq<u8>, index: u16, ms: seq<Msg>, steps: nat)
    requires forall k :: 0 <= k < |ms| ==> WellFormed(ms[k])
    requires index + |EncodeAll(ms)| < |data| && index + |EncodeAll(ms)| < INDEX_RANGE
    requires data[index..index + |EncodeAll(ms)|] == EncodeAll(ms) && data[index + |EncodeAll(ms)|] == 0
    requires steps > |ms|
    ensures GetMidi(data, index, steps) ==
      Parsed(index + |EncodeAll(ms)|, HandleAll(ms, None).actions, HandleAll(ms, None).note, Terminator)
  {
    ScanEncoded(data, index, ms, steps);
  }
}
