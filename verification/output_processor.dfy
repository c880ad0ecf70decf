/**
 * The MIDI output processor: turns the events buffered at its input into
 * MIDI 1.0 channel voice messages (Note On / Note Off) and hands them, with a
 * wall-clock timestamp, to the output port it was created for.
 */
module OutputProcessor {
  import opened Common

  /**
   * The `type` of a buffered event. Only "noteon" and "noteoff" are
   * recognised; `Other(tag)` stands for a tag that is neither, as `TypeOf`
   * shows.
   */
  datatype EventType = NoteOn | NoteOff | Other(tag: string)

  const NoteOnTag: string := "noteon"
  const NoteOffTag: string := "noteoff"

  /** The event type a `type` string denotes: the switch cases compare the string with these two tags. */
  function TypeOf(tag: string): (t: EventType)
    ensures t.NoteOn? <==> tag == NoteOnTag
    ensures t.NoteOff? <==> tag == NoteOffTag
    ensures t.Other? ==> t.tag == tag && tag != NoteOnTag && tag != NoteOffTag
  {
    if tag == NoteOnTag then NoteOn else if tag == NoteOffTag then NoteOff else Other(tag)
  }

  /** One item of the processor's input data. Channel numbers are 1-based. */
  datatype NoteEvent = NoteEvent(kind: EventType, timestampTicks: real, channel: int, pitch: int, velocity: int)

  /** One call of the port's `send`: the message values and the timestamp in milliseconds. */
  datatype Message = Message(bytes: seq<int>, timestamp: real)

  /** Status nibbles of the two channel voice messages, section "Channel Voice Messages" of the MIDI 1.0 specification. */
  const NoteOnStatus: int := 0x90
  const NoteOffStatus: int := 0x80

  /** The only port state in which anything is sent. */
  const Connected: string := "connected"

  predicate IsNote(e: NoteEvent) {
    e.kind.NoteOn? || e.kind.NoteOff?
  }

  /** The wall-clock instant of document tick zero, computed once per `process` call. */
  function Origin(now: real, offset: real, ticksToMsMultiplier: real): (origin: real) {
    now - offset * ticksToMsMultiplier
  }

  /** The timestamp of an event `ticks` after document start. */
  function Timestamp(origin: real, ticks: real, ticksToMsMultiplier: real): (t: real) {
    origin + ticks * ticksToMsMultiplier
  }

  /** What the switch statement sends for one event, if anything. */
  function MessageFor(e: NoteEvent, origin: real, ticksToMsMultiplier: real): (r: Option<Message>)
    ensures r.Some? <==> IsNote(e)
    ensures r.Some? ==> && |r.value.bytes| == 3 && r.value.bytes[1] == e.pitch
                        && r.value.timestamp == Timestamp(origin, e.timestampTicks, ticksToMsMultiplier)
  {
    var ts := Timestamp(origin, e.timestampTicks, ticksToMsMultiplier);
    match e.kind
    case NoteOn => Some(Message([NoteOnStatus + (e.channel - 1), e.pitch, e.velocity], ts))
    case NoteOff => Some(Message([NoteOffStatus + (e.channel - 1), e.pitch, 0], ts))
    case Other(_) => None
  }

  function MessagesFor(e: NoteEvent, origin: real, ticksToMsMultiplier: real): (ms: seq<Message>) {
    match MessageFor(e, origin, ticksToMsMultiplier)
    case Some(m) => [m]
    case None => []
  }

  /** The number of recognised (note-on or note-off) events in a buffer. */
  function NoteCount(events: seq<NoteEvent>): (count: nat) {
    if events == [] then 0
    else NoteCount(events[..|events| - 1]) + (if IsNote(events[|events| - 1]) then 1 else 0)
  }

  /** Everything one connected `process` call sends for the buffer, in buffer order. */
  function Encode(events: seq<NoteEvent>, origin: real, ticksToMsMultiplier: real): (ms: seq<Message>)
    ensures |ms| == NoteCount(events) <= |events|
  {
    if events == [] then []
    else Encode(events[..|events| - 1], origin, ticksToMsMultiplier)
         + MessagesFor(events[|events| - 1], origin, ticksToMsMultiplier)
  }

  /** Encoding is a homomorphism: splitting the buffer anywhere splits the output at the same place. */
  lemma {:induction false} EncodeConcat(a: seq<NoteEvent>, b: seq<NoteEvent>, origin: real, m: real)
    ensures Encode(a + b, origin, m) == Encode(a, origin, m) + Encode(b, origin, m)
  {
    if b == [] {
      assert a + b == a;
    } else {
      var b' := b[..|b| - 1];
      assert (a + b)[..|a + b| - 1] == a + b';
      assert (a + b)[|a + b| - 1] == b[|b| - 1];
      EncodeConcat(a, b', origin, m);
    }
  }

  /** Extending the buffer by one event extends the output by that event's message, if any. */
  lemma EncodeStep(events: seq<NoteEvent>, i: nat, origin: real, m: real)
    requires i < |events|
    ensures Encode(events[..i + 1], origin, m) == Encode(events[..i], origin, m) + MessagesFor(events[i], origin, m)
  {
    assert events[..i + 1][..i] == events[..i];
  }

  lemma MessageForNote(e: NoteEvent, origin: real, m: real)
    ensures e.kind.NoteOn? ==> MessageFor(e, origin, m) == Some(Message([0x90 + (e.channel - 1), e.pitch, e.velocity], Timestamp(origin, e.timestampTicks, m)))
    ensures e.kind.NoteOff? ==> MessageFor(e, origin, m) == Some(Message([0x80 + (e.channel - 1), e.pitch, 0], Timestamp(origin, e.timestampTicks, m)))
  {
  }

  /** A single note event is sent as exactly one message, with the wire bytes of its type. */
  lemma NoteEventMessage(e: NoteEvent, origin: real, m: real)
    ensures e.kind.NoteOn? ==> Encode([e], origin, m) == [Message([0x90 + (e.channel - 1), e.pitch, e.velocity], Timestamp(origin, e.timestampTicks, m))]
    ensures e.kind.NoteOff? ==> Encode([e], origin, m) == [Message([0x80 + (e.channel - 1), e.pitch, 0], Timestamp(origin, e.timestampTicks, m))]
    ensures e.kind.Other? ==> Encode([e], origin, m) == []
  {
    MessageForNote(e, origin, m);
    EncodeStep([e], 0, origin, m);
    assert [e][..1] == [e];
  }

  /**
   * The k-th message sent comes from the k-th recognised event: there is an
   * index i in the buffer whose event produced it, and exactly k recognised
   * events precede i.
   */
  lemma {:induction false} EncodeAt(events: seq<NoteEvent>, origin: real, m: real, k: nat)
    requires k < NoteCount(events)
    ensures exists i :: 0 <= i < |events| && IsNote(events[i]) && NoteCount(events[..i]) == k
                        && MessageFor(events[i], origin, m) == Some(Encode(events, origin, m)[k])
  {
    var n := |events|;
    var init := events[..n - 1];
    assert events[..n - 1] == init;
    if k < NoteCount(init) {
      EncodeAt(init, origin, m, k);
      var i :| 0 <= i < |init| && IsNote(init[i]) && NoteCount(init[..i]) == k
               && MessageFor(init[i], origin, m) == Some(Encode(init, origin, m)[k]);
      assert init[..i] == events[..i];
      assert events[i] == init[i];
    } else {
      assert events[..n - 1] == init;
      assert IsNote(events[n - 1]);
    }
  }

  // ---------------------------------------------------------------------------
  // A receiver's view of the wire bytes, to check the encoding against.

  /** The channel voice messages a receiver recognises among three-byte messages. */
  datatype ChannelVoice = NoteOnMessage(channel: int, pitch: int, velocity: int)
                        | NoteOffMessage(channel: int, pitch: int, velocity: int)
                        | NotANoteMessage

  /** Decode a three-value message: status nibble 0x8 is Note Off, 0x9 is Note On; the low nibble is channel - 1. */
  function ParseChannelVoice(bytes: seq<int>): ChannelVoice {
    if |bytes| != 3 then NotANoteMessage
    else if 0x80 <= bytes[0] < 0x90 then NoteOffMessage(bytes[0] - 0x80 + 1, bytes[1], bytes[2])
    else if 0x90 <= bytes[0] < 0xA0 then NoteOnMessage(bytes[0] - 0x90 + 1, bytes[1], bytes[2])
    else NotANoteMessage
  }

  /** A value that fits in a MIDI data byte (high bit clear). */
  predicate IsDataByte(x: int) { 0 <= x < 0x80 }

  /** The event fields the caller is expected to have validated: channel 1..16, pitch and velocity data bytes. */
  predicate ValidNoteEvent(e: NoteEvent) {
    IsNote(e) && 1 <= e.channel <= 16 && IsDataByte(e.pitch) && IsDataByte(e.velocity)
  }

  /**
   * For a valid note event, the message sent is a well-formed channel voice
   * message that a receiver decodes back to the event's type, channel and
   * pitch; a note-on keeps its velocity and a note-off always carries 0.
   */
  lemma MessageRoundTrip(e: NoteEvent, origin: real, m: real)
    requires ValidNoteEvent(e)
    ensures MessageFor(e, origin, m).Some?
    ensures var bytes := MessageFor(e, origin, m).value.bytes;
            && 0x80 <= bytes[0] < 0x100 && IsDataByte(bytes[1]) && IsDataByte(bytes[2])
            && ParseChannelVoice(bytes)
               == if e.kind.NoteOn? then NoteOnMessage(e.channel, e.pitch, e.velocity)
                  else NoteOffMessage(e.channel, e.pitch, 0)
  {
  }

  /** The processor does not validate channels: a note-on for channel 0 reaches the wire as a note-off on channel 16. */
  lemma NoteOnChannelZeroReadsAsNoteOff(origin: real, m: real)
    ensures ParseChannelVoice(MessageFor(NoteEvent(NoteOn, 0.0, 0, 60, 100), origin, m).value.bytes)
            == NoteOffMessage(16, 60, 100)
  {
  }

  /** The timestamp is "now" shifted by the event's distance from the timeline start, in milliseconds. */
  lemma TimestampFromNow(now: real, offset: real, m: real, ticks: real)
    ensures Timestamp(Origin(now, offset, m), ticks, m) == now + (ticks - offset) * m
  {
  }

  /** With a positive tick duration, later ticks get strictly later timestamps. */
  lemma TimestampMonotonic(origin: real, m: real, t1: real, t2: real)
    requires m > 0.0 && t1 < t2
    ensures Timestamp(origin, t1, m) < Timestamp(origin, t2, m)
  {
    var d := t2 - t1;
    assert d * m > 0.0;
    assert t2 * m == t1 * m + d * m;
    assert Timestamp(origin, t2, m) == Timestamp(origin, t1, m) + d * m;
  }

  // ---------------------------------------------------------------------------
  // The objects.

  /** The host's MIDI output port: its connection state and the log of what was sent to it. */
  class MidiOutputPort {
    const id: string
    var state: string
    var sent: seq<Message>

    constructor (id: string, state: string)
      ensures this.id == id && this.state == state && sent == []
    {
      this.id := id;
      this.state := state;
      sent := [];
    }

    /** `midiOutput.send(bytes, timestamp)`. */
    method Send(bytes: seq<int>, timestamp: real)
      modifies this`sent
      ensures sent == old(sent) + [Message(bytes, timestamp)]
    {
      sent := sent + [Message(bytes, timestamp)];
    }
  }

  /** The output processor created for one port id. */
  class Processor {
    const portID: string
    const midiOutput: MidiOutputPort
    var isEnabled: bool

    /** `createProcessor`: the port is resolved once, by id, by the caller. */
    constructor (portID: string, midiOutput: MidiOutputPort)
      ensures this.portID == portID && this.midiOutput == midiOutput
      ensures isEnabled
    {
      this.portID := portID;
      this.midiOutput := midiOutput;
      isEnabled := true;
    }

    /**
     * Send every recognised buffered event, in buffer order, when the port is
     * connected; send nothing otherwise. The window bounds are not consulted
     * and neither is `isEnabled`.
     */
    method Process(inputData: seq<NoteEvent>, scanStart: real, scanEnd: real, nowToScanStart: real,
                   ticksToMsMultiplier: real, offset: real, now: real)
      modifies midiOutput`sent
      ensures midiOutput.sent == old(midiOutput.sent)
        + (if midiOutput.state == Connected
           then Encode(inputData, Origin(now, offset, ticksToMsMultiplier), ticksToMsMultiplier)
           else [])
    {
      var origin := now - (offset * ticksToMsMultiplier);
      var n := |inputData|;
      if midiOutput.state == Connected {
        for i := 0 to n
          invariant midiOutput.sent == old(midiOutput.sent) + Encode(inputData[..i], origin, ticksToMsMultiplier)
        {
          var item := inputData[i];
          var timestamp := origin + (item.timestampTicks * ticksToMsMultiplier);
          assert timestamp == Timestamp(origin, item.timestampTicks, ticksToMsMultiplier);
          EncodeStep(inputData, i, origin, ticksToMsMultiplier);
          match item.kind {
            case NoteOn =>
              midiOutput.Send([0x90 + (item.channel - 1), item.pitch, item.velocity], timestamp);
            case NoteOff =>
              midiOutput.Send([0x80 + (item.channel - 1), item.pitch, 0], timestamp);
            case Other(_) =>
          }
        }
        assert inputData[..n] == inputData;
      }
    }

    method SetEnabled(isEnabled: bool)
      modifies this`isEnabled
      ensures this.isEnabled == isEnabled
    {
      this.isEnabled := isEnabled;
    }

    /** The port id given at construction; no method changes it. */
    function GetMIDIPortID(): (id: string)
      ensures id == portID
    {
      portID
    }
  }
}
