/** The byte-stream framing both MIDI parsers share (Audio_Synthesizer_H533
    `set_midi` and Audio_Synthesizer_F072 `get_midi`): a loop that stops at a
    0x00 byte, classifies the byte at the cursor by its high nibble, and
    consumes a fixed number of bytes per message type. The cursor is the
    file-level `static uint16_t index`, which is never reset, so here it is
    an explicit argument and result, and every `index++` wraps at 2^16. */
module MidiStream {
  import opened Bits
  import opened Common

  // Message types: the high nibble of a status byte.
  const NOTE_OFF_EVENT: nat := 0x8
  const NOTE_ON_EVENT: nat := 0x9
  const POLYPHONIC_KEY_PRESSURE: nat := 0xA
  const CONTROL_CHANGE: nat := 0xB
  const PROGRAM_CHANGE: nat := 0xC
  const CHANNEL_PRESSURE: nat := 0xD
  const PITCH_BEND: nat := 0xE
  const SYSTEM_MESSAGE: nat := 0xF

  /** 2^16: `index` is a uint16_t. */
  const INDEX_RANGE: nat := 0x1_0000

  /** `get_statuscode`: `(data[index] & 0xF0) >> 4`, the high nibble. */
  function StatusCode(b: u8): (r: nat)
    ensures r < 16
    ensures 16 * r <= b < 16 * (r + 1)
  {
    b / 16
  }

  /** The high nibble is what the mask-and-shift of `get_statuscode` leaves. */
  lemma StatusCodeIsMaskShift(b: u8)
    ensures StatusCode(b) == ShiftRight(And(b, 0xF0), 4)
  {
    AndHighNibble(b);
    ShiftRightIsDiv(And(b, 0xF0), 4);
    Pow2Values();
  }

  /** The `set_keynumber`, `set_velocity`, ... extractors: each stores
      `data[index] & 0x7F`. The result is the byte with its top bit cleared. */
  function DataValue(b: u8): (r: u8)
    ensures r <= MIDI_MAX_VAL
    ensures r == And(b, 0x7F)
    ensures b <= MIDI_MAX_VAL ==> r == b
    ensures b > MIDI_MAX_VAL ==> r == b - 128
  {
    AndLow7(b);
    b % 128
  }

  /** The number of bytes one pass of the loop consumes for a message type,
      counting the status byte; None for the types 0..7, which no case of the
      switch matches. Control change runs on into the program change case
      (there is no `break`), so it reads the cursor twice more. A system
      message consumes its status byte whatever its low nibble. */
  function Length(code: nat): (r: Option<nat>)
    ensures r.Some? <==> 8 <= code <= 15
    ensures code == NOTE_ON_EVENT || code == NOTE_OFF_EVENT || code == POLYPHONIC_KEY_PRESSURE ==> r == Some(3)
    ensures code == CONTROL_CHANGE ==> r == Some(5)
    ensures code == PROGRAM_CHANGE || code == CHANNEL_PRESSURE ==> r == Some(2)
    ensures code == PITCH_BEND ==> r == Some(3)
    ensures code == SYSTEM_MESSAGE ==> r == Some(1)
  {
    if code == SYSTEM_MESSAGE then Some(1)
    else if code == NOTE_ON_EVENT || code == NOTE_OFF_EVENT then Some(3)
    else if code == POLYPHONIC_KEY_PRESSURE then Some(3)
    else if code == CONTROL_CHANGE then Some(3 + 2)
    else if code == PROGRAM_CHANGE || code == CHANNEL_PRESSURE then Some(2)
    else if code == PITCH_BEND then Some(3)
    else None
  }

  /** The cursor after k `index++` steps. */
  function Bump(index: u16, k: nat): (r: u16)
    ensures index + k < INDEX_RANGE ==> r == index + k
  {
    (index + k) % INDEX_RANGE
  }

  /** One message as the loop consumes it: the status byte and the bytes the
      extractors read after it. */
  datatype Msg = Msg(status: u8, body: seq<u8>)

  /** A message the loop accepts: a status byte of type 8..15 followed by
      exactly the bytes that type consumes (data bytes are not checked, and
      may even be 0x00). */
  predicate WellFormed(m: Msg)
  {
    && m.status >= 0x80
    && Length(StatusCode(m.status)).Some?
    && |m.body| + 1 == Length(StatusCode(m.status)).value
  }

  /** Why the loop ends: the 0x00 terminator at the cursor; a status byte of
      type 0..7, on which the C loop spins forever without moving the cursor;
      a read past the end of the buffer; or the step bound of the model ran
      out first. */
  datatype Stop = Terminator | Spin | PastEnd | OutOfSteps

  datatype Frame = Found(msg: Msg, next: u16) | Stopped(stop: Stop)

  /** Every byte of a k-byte message starting at the cursor lies in the buffer. */
  predicate Readable(data: seq<u8>, index: u16, k: nat)
  {
    forall j :: 0 <= j < k ==> Bump(index, j) < |data|
  }

  /** One pass of the loop: the `while (data[index] != 0x00)` test, the switch
      on the status code and the consumption of the message's bytes. */
  function NextFrame(data: seq<u8>, index: u16): (r: Frame)
    ensures r == Stopped(Terminator) <==> index < |data| && data[index] == 0
    ensures r == Stopped(Spin) <==> index < |data| && 0 < data[index] < 0x80
    ensures r.Found? ==>
      && index < |data| && r.msg.status == data[index] && WellFormed(r.msg)
      && r.next == Bump(index, |r.msg.body| + 1)
      && forall j :: 0 <= j < |r.msg.body| ==> Bump(index, j + 1) < |data| && r.msg.body[j] == data[Bump(index, j + 1)]
  {
    if index >= |data| then Stopped(PastEnd)
    else if data[index] == 0 then Stopped(Terminator)
    else
      var status := data[index];
      match Length(StatusCode(status))
      case None => Stopped(Spin)
      case Some(n) =>
        if Readable(data, index, n) then
          Found(Msg(status, Body(data, index, n)), Bump(index, n))
        else Stopped(PastEnd)
  }

  datatype Scanned = Scanned(msgs: seq<Msg>, index: u16, stop: Stop)

  /** The whole loop, bounded by `steps` passes: the messages it went through in
      order, the final cursor and why it ended. */
  function Scan(data: seq<u8>, index: u16, steps: nat): (r: Scanned)
    ensures forall k :: 0 <= k < |r.msgs| ==> WellFormed(r.msgs[k])
    ensures |r.msgs| <= steps
    ensures r.stop == Terminator ==> r.index < |data| && data[r.index] == 0
    ensures r.stop == Spin ==> r.index < |data| && 0 < data[r.index] < 0x80
    decreases steps
  {
    if steps == 0 then Scanned([], index, OutOfSteps)
    else
      match NextFrame(data, index)
      case Stopped(stop) => Scanned([], index, stop)
      case Found(m, next) =>
        var rest := Scan(data, next, steps - 1);
        Scanned([m] + rest.msgs, rest.index, rest.stop)
  }

  // ---- the wire form of a message sequence ----

  function Encode(m: Msg): (r: seq<u8>)
  {
    [m.status] + m.body
  }

  function EncodeAll(ms: seq<Msg>): (r: seq<u8>)
    ensures |ms| == 0 ==> r == []
  {
    if |ms| == 0 then [] else Encode(ms[0]) + EncodeAll(ms[1..])
  }

  /** The n - 1 bytes after the status byte, each read at the cursor after
      one more `index++`. */
  function Body(data: seq<u8>, index: u16, n: nat): (r: seq<u8>)
    requires n >= 1 && Readable(data, index, n)
    ensures |r| == n - 1
    ensures forall j :: 0 <= j < n - 1 ==> r[j] == data[Bump(index, j + 1)]
  {
    seq(n - 1, j requires 0 <= j < n - 1 => data[Bump(index, j + 1)])
  }

  /** A well-formed message at the cursor is found whole, and the cursor moves
      just past it. */
  lemma FrameOfEncoded(data: seq<u8>, index: u16, m: Msg)
    requires WellFormed(m)
    requires index + |Encode(m)| <= |data| && index + |Encode(m)| < INDEX_RANGE
    requires data[index..index + |Encode(m)|] == Encode(m)
    ensures NextFrame(data, index) == Found(m, index + |Encode(m)|)
  {
    var n := |Encode(m)|;
    var e := data[index..index + n];
    assert data[index] == e[0] == m.status;
    assert Readable(data, index, n) by {
      forall j | 0 <= j < n ensures Bump(index, j) < |data| {
        assert Bump(index, j) == index + j;
      }
    }
    assert Body(data, index, n) == m.body by {
      forall j | 0 <= j < n - 1 ensures data[Bump(index, j + 1)] == m.body[j] {
        assert Bump(index, j + 1) == index + j + 1;
        assert data[index + j + 1] == e[j + 1];
      }
    }
  }

  /** One pass of the loop that finds a message, followed by the rest of the loop. */
  lemma ScanFound(data: seq<u8>, index: u16, steps: nat, m: Msg, next: u16)
    requires steps > 0 && NextFrame(data, index) == Found(m, next)
    ensures Scan(data, index, steps).msgs == [m] + Scan(data, next, steps - 1).msgs
    ensures Scan(data, index, steps).index == Scan(data, next, steps - 1).index
    ensures Scan(data, index, steps).stop == Scan(data, next, steps - 1).stop
  {
  }

  /** The encoding of a non-empty sequence splits after its first message. */
  lemma EncodeAllCons(data: seq<u8>, index: nat, ms: seq<Msg>)
    requires |ms| > 0
    requires index + |EncodeAll(ms)| <= |data| && data[index..index + |EncodeAll(ms)|] == EncodeAll(ms)
    ensures index + |Encode(ms[0])| + |EncodeAll(ms[1..])| == index + |EncodeAll(ms)|
    ensures data[index..index + |Encode(ms[0])|] == Encode(ms[0])
    ensures data[index + |Encode(ms[0])|..index + |EncodeAll(ms)|] == EncodeAll(ms[1..])
  {
    var e0, es := Encode(ms[0]), EncodeAll(ms[1..]);
    assert EncodeAll(ms) == e0 + es;
    var all := data[index..index + |EncodeAll(ms)|];
    assert data[index..index + |e0|] == all[..|e0|];
    assert data[index + |e0|..index + |EncodeAll(ms)|] == all[|e0|..];
  }

  /** Decoding inverts encoding: the loop run over a well-formed message
      sequence followed by the 0x00 terminator finds exactly those messages and
      stops on the terminator, with the cursor on it. */
  lemma {:induction false} ScanEncoded(data: seq<u8>, index: u16, ms: seq<Msg>, steps: nat)
    requires forall k :: 0 <= k < |ms| ==> WellFormed(ms[k])
    requires index + |EncodeAll(ms)| < |data| && index + |EncodeAll(ms)| < INDEX_RANGE
    requires data[index..index + |EncodeAll(ms)|] == EncodeAll(ms) && data[index + |EncodeAll(ms)|] == 0
    requires steps > |ms|
    ensures Scan(data, index, steps) == Scanned(ms, index + |EncodeAll(ms)|, Terminator)
    decreases |ms|
  {
    if |ms| == 0 {
      assert NextFrame(data, index) == Stopped(Terminator);
    } else {
      EncodeAllCons(data, index, ms);
      var next := index + |Encode(ms[0])|;
      FrameOfEncoded(data, index, ms[0]);
      ScanFound(data, index, steps, ms[0], next);
      ScanEncoded(data, next, ms[1..], steps - 1);
      assert [ms[0]] + ms[1..] == ms;
    }
  }

  /** A status byte of type 0..7 at the cursor is never consumed: however many
      passes are allowed, the loop stays where it is. */
  lemma SpinsInPlace(data: seq<u8>, index: u16, steps: nat)
    requires index < |data| && 0 < data[index] < 0x80 && steps > 0
    ensures Scan(data, index, steps) == Scanned([], index, Spin)
  {
  }
}
