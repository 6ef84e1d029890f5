/** The BLE-MIDI packet encoder of midi-controller/Utilities/MIDIPacket.swift.

    A MIDI 1.0 Control Change message (status 0xBn, controller, value) is framed
    as a single-event BLE-MIDI packet (MIDI over Bluetooth Low Energy 1.0, the
    "BLE packet encoding format" section): a header byte carrying the high six
    bits of a 13-bit millisecond timestamp, a timestamp byte carrying its low
    seven bits, then the MIDI message itself.

    The wall-clock reading becomes the parameter `ms`: the 64-bit
    two's-complement pattern of the Swift `Int` millisecond count.  Bytes are
    `bv8`, so every mask, shift and OR is the source's own bit operation. */
module MidiPacket {
  import opened Options

  type Byte = bv8

  /** `currentTimestamp()` once the clock has been read: `UInt16(ms & 0x1FFF)`,
      a 13-bit value. */
  function CurrentTimestamp(ms: bv64): (ts: bv16)
    ensures ts < 0x2000
  {
    (ms & 0x1FFF) as bv16
  }

  /** The mask keeps the low 13 bits, so the timestamp is `ms` modulo 8192 (the
      unsigned remainder of the pattern, which is also the floored remainder of
      the signed value, since 8192 divides 2^64); multiples of 8192 give 0. */
  lemma TimestampIsModulo(ms: bv64)
    ensures CurrentTimestamp(ms) as bv64 == ms % 0x2000
    ensures ms % 0x2000 == 0 ==> CurrentTimestamp(ms) == 0
  {
  }

  /** The header byte: bit 7 set, bit 6 clear, then bits 12-7 of the
      timestamp. */
  function HeaderByte(timestamp: bv16): (b: Byte)
    ensures b & 0xC0 == 0x80
    ensures b & 0x3F == ((timestamp >> 7) & 0x3F) as Byte
  {
    (0x80 | ((timestamp >> 7) & 0x3F)) as Byte
  }

  /** The timestamp byte: bit 7 set, then bits 6-0 of the timestamp. */
  function TimestampByte(timestamp: bv16): (b: Byte)
    ensures b & 0x80 == 0x80 && b & 0x7F == (timestamp & 0x7F) as Byte
  {
    (0x80 | (timestamp & 0x7F)) as Byte
  }

  /** The Control Change status byte on the channel's low nibble. */
  function StatusByte(channel: Byte): (b: Byte)
    ensures b >> 4 == 0xB && b & 0x0F == channel & 0x0F
    ensures channel <= 15 ==> b == 0xB0 + channel
  {
    0xB0 | (channel & 0x0F)
  }

  /** A data byte: bit 7 clear; the input itself when it fits in seven bits,
      else the input less 128. */
  function DataByte(x: Byte): (b: Byte)
    ensures b & 0x80 == 0
    ensures x <= 127 ==> b == x
    ensures x > 127 ==> b == x - 128
  {
    x & 0x7F
  }

  /** `MIDIPacket.controlChange(channel:controller:value:)` with the clock
      reading `ms` passed in.  Every input is MASKED into its field, never
      saturated: an out-of-range channel, controller or value keeps only its
      low bits. */
  function ControlChange(channel: Byte, controller: Byte, value: Byte, ms: bv64): (p: seq<Byte>)
    ensures |p| == 5
    // framing: header bits 7-6 are 10, timestamp byte bit 7 is 1
    ensures p[0] & 0xC0 == 0x80 && p[1] & 0x80 == 0x80
    // the header's low six bits and the timestamp byte's low seven bits
    // reassemble to the 13-bit timestamp
    ensures ((p[0] & 0x3F) as bv16 << 7) | (p[1] & 0x7F) as bv16 == CurrentTimestamp(ms)
    // status: Control Change on the channel's low nibble
    ensures p[2] >> 4 == 0xB && p[2] & 0x0F == channel & 0x0F
    // data bytes: the inputs' low seven bits
    ensures p[3] == controller & 0x7F && p[4] == value & 0x7F
  {
    var timestamp := CurrentTimestamp(ms);
    ReassembleFields(timestamp);
    [HeaderByte(timestamp), TimestampByte(timestamp), StatusByte(channel), DataByte(controller), DataByte(value)]
  }

  /** The two timestamp fields of a header byte and timestamp byte built from
      a 13-bit timestamp reassemble to it. */
  lemma ReassembleFields(ts: bv16)
    requires ts < 0x2000
    ensures ((HeaderByte(ts) & 0x3F) as bv16 << 7) | (TimestampByte(ts) & 0x7F) as bv16 == ts
  {
  }

  /** One Control Change event as it travels on the wire: channel 0-15,
      controller and value 0-127, a 13-bit timestamp. */
  datatype ControlChangeEvent = ControlChangeEvent(channel: Byte, controller: Byte, value: Byte, timestamp: bv16)
  {
    predicate InRange() {
      channel <= 15 && controller <= 127 && value <= 127 && timestamp < 0x2000
    }
  }

  /** The receiving side of the same framing: reads a 5-byte single-event
      packet back into its event, or `None` when a framing bit is wrong. */
  function Parse(p: seq<Byte>): (r: Option<ControlChangeEvent>)
    ensures r.Some? ==> |p| == 5 && r.value.InRange()
  {
    if |p| == 5 && p[0] & 0xC0 == 0x80 && p[1] & 0x80 == 0x80 && p[2] & 0xF0 == 0xB0
       && p[3] & 0x80 == 0 && p[4] & 0x80 == 0
    then Some(ControlChangeEvent(p[2] & 0x0F, p[3], p[4],
                                 ((p[0] & 0x3F) as bv16 << 7) | (p[1] & 0x7F) as bv16))
    else None
  }

  /** Encoding then parsing gives back the masked inputs and the timestamp. */
  lemma ParseControlChange(channel: Byte, controller: Byte, value: Byte, ms: bv64)
    ensures Parse(ControlChange(channel, controller, value, ms))
         == Some(ControlChangeEvent(channel & 0x0F, controller & 0x7F, value & 0x7F, CurrentTimestamp(ms)))
  {
  }

  /** Every well-framed packet is what the encoder produces for its event, read
      at a clock value equal to its timestamp. */
  lemma ControlChangeOfParse(p: seq<Byte>)
    requires Parse(p).Some?
    ensures var e := Parse(p).value;
            ControlChange(e.channel, e.controller, e.value, e.timestamp as bv64) == p
  {
    ControlChangeOfEvent(p);
    BytesOfParse(p);
  }

  /** Encoding a parsed event at a clock value equal to its timestamp builds
      each byte from that timestamp (it is below 8192, so it survives the
      clock mask). */
  lemma ControlChangeOfEvent(p: seq<Byte>)
    requires Parse(p).Some?
    ensures var e := Parse(p).value;
            ControlChange(e.channel, e.controller, e.value, e.timestamp as bv64)
            == [HeaderByte(e.timestamp), TimestampByte(e.timestamp), StatusByte(e.channel),
                DataByte(e.controller), DataByte(e.value)]
  {
    TimestampOfSmallClock(Parse(p).value.timestamp);
  }

  /** Each byte of a well-framed packet is rebuilt from its event's field. */
  lemma BytesOfParse(p: seq<Byte>)
    requires Parse(p).Some?
    ensures var e := Parse(p).value;
            [HeaderByte(e.timestamp), TimestampByte(e.timestamp), StatusByte(e.channel),
             DataByte(e.controller), DataByte(e.value)] == p
  {
    FrameRoundTrip(p[0], p[1], p[2], p[3], p[4]);
  }

  /** Five bytes that pass the framing checks are rebuilt from the fields they
      carry. */
  lemma FrameRoundTrip(h: Byte, l: Byte, s: Byte, c: Byte, v: Byte)
    requires h & 0xC0 == 0x80 && l & 0x80 == 0x80 && s & 0xF0 == 0xB0 && c & 0x80 == 0 && v & 0x80 == 0
    ensures var ts := ((h & 0x3F) as bv16 << 7) | (l & 0x7F) as bv16;
            HeaderByte(ts) == h && TimestampByte(ts) == l && StatusByte(s & 0x0F) == s
            && DataByte(c) == c && DataByte(v) == v
  {
    FieldsOfFramedBytes(h, l);
    StatusByteOfNibble(s);
  }

  /** A clock reading below 8192 is its own timestamp. */
  lemma TimestampOfSmallClock(ts: bv16)
    requires ts < 0x2000
    ensures CurrentTimestamp(ts as bv64) == ts
  {
  }

  /** A header byte and a timestamp byte are rebuilt from the timestamp they
      carry. */
  lemma FieldsOfFramedBytes(header: Byte, low: Byte)
    requires header & 0xC0 == 0x80 && low & 0x80 == 0x80
    ensures var ts := ((header & 0x3F) as bv16 << 7) | (low & 0x7F) as bv16;
            ts < 0x2000 && HeaderByte(ts) == header && TimestampByte(ts) == low
  {
  }

  /** A Control Change status byte is rebuilt from its channel nibble. */
  lemma StatusByteOfNibble(status: Byte)
    requires status & 0xF0 == 0xB0
    ensures StatusByte(status & 0x0F) == status
  {
  }

  /** The packet depends on the clock only through the reading modulo 8192:
      readings with the same remainder (8192 ms apart, say) give the same
      bytes. */
  lemma TimestampWraps(channel: Byte, controller: Byte, value: Byte, m1: bv64, m2: bv64)
    requires m1 % 0x2000 == m2 % 0x2000
    ensures ControlChange(channel, controller, value, m1)
         == ControlChange(channel, controller, value, m2)
  {
    TimestampIsModulo(m1);
    TimestampIsModulo(m2);
  }

  /** Out-of-range arguments are masked, not clamped: channel 20 goes out on
      channel 4, and controller 200 becomes 72 (not 127). */
  lemma OutOfRangeIsMasked(value: Byte, ms: bv64)
    ensures ControlChange(20, 200, value, ms)[2..4] == [0xB4, 72]
  {
  }
}
