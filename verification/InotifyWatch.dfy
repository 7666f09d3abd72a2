/** The parser of the inotify event buffer, against the layout in which the
    kernel writes the records (little-endian hosts). */
module InotifyWatch {
  import opened Octets

  const IN_CLOSE_WRITE := 8

  const EVENT_HEADER_SIZE := 16

  /** The names printed, and whether the buffer was read to its end; otherwise
      unpacking a header raised an error. */
  datatype Outcome = Outcome(names: seq<Bytes>, ok: bool)

  /** A 32-bit unsigned number, least significant byte first. */
  function Unpack(b: Bytes): nat
    requires |b| == 4
  {
    (b[0] as int) + 256 * (b[1] as int) + 65536 * (b[2] as int) + 16777216 * (b[3] as int)
  }

  predicate IsCloseWrite(mask: nat) { mask / IN_CLOSE_WRITE % 2 == 1 }

  /** Drops trailing null bytes. */
  function RStrip(b: Bytes): (r: Bytes)
    ensures r <= b && (r != [] ==> r[|r| - 1] != 0)
    ensures forall i :: |r| <= i < |b| ==> b[i] == 0
    decreases |b|
  {
    if b != [] && b[|b| - 1] == 0 then RStrip(b[..|b| - 1]) else b
  }

  /** Where the record at the head of the buffer ends; a slice stops at the end of the buffer. */
  function RecordEnd(buf: Bytes): (end: nat)
    requires |buf| >= EVENT_HEADER_SIZE
    ensures EVENT_HEADER_SIZE <= end <= |buf|
  {
    var end := EVENT_HEADER_SIZE + Unpack(buf[12..16]);
    if end <= |buf| then end else |buf|
  }

  /** What the record at the head of the buffer prints. */
  function Printed(buf: Bytes): seq<Bytes>
    requires |buf| >= EVENT_HEADER_SIZE
  {
    if Unpack(buf[12..16]) > 0 && IsCloseWrite(Unpack(buf[4..8])) then [RStrip(buf[EVENT_HEADER_SIZE..RecordEnd(buf)])]
    else []
  }

  /** What the whole buffer prints, record by record. */
  function Parse(buf: Bytes): Outcome
    decreases |buf|
  {
    if buf == [] then Outcome([], true)
    else if |buf| < EVENT_HEADER_SIZE then Outcome([], false)
    else
      var rest := Parse(buf[RecordEnd(buf)..]);
      Outcome(Printed(buf) + rest.names, rest.ok)
  }

  /** Where the next record starts, as the loop computes it; possibly past the end. */
  function NextOffset(buf: Bytes, offset: nat): nat
    requires offset + EVENT_HEADER_SIZE <= |buf|
  {
    offset + EVENT_HEADER_SIZE + Unpack(buf[offset + 12..offset + 16])
  }

  /** What is parsed from an offset on; nothing from beyond the end. */
  function ParseFrom(buf: Bytes, offset: nat): Outcome {
    if offset <= |buf| then Parse(buf[offset..]) else Outcome([], true)
  }

  /** What the record at an offset prints. */
  function PrintedAt(buf: Bytes, offset: nat): seq<Bytes>
    requires offset + EVENT_HEADER_SIZE <= |buf|
  {
    var end := if NextOffset(buf, offset) <= |buf| then NextOffset(buf, offset) else |buf|;
    if Unpack(buf[offset + 12..offset + 16]) > 0 && IsCloseWrite(Unpack(buf[offset + 4..offset + 8]))
    then [RStrip(buf[offset + EVENT_HEADER_SIZE..end])] else []
  }

  lemma Advances(buf: Bytes, offset: nat)
    requires offset + EVENT_HEADER_SIZE <= |buf|
    ensures var next := ParseFrom(buf, NextOffset(buf, offset));
            ParseFrom(buf, offset) == Outcome(PrintedAt(buf, offset) + next.names, next.ok)
  {
    var here, next := buf[offset..], NextOffset(buf, offset);
    var end := if next <= |buf| then next else |buf|;
    assert here[12..16] == buf[offset + 12..offset + 16] && here[4..8] == buf[offset + 4..offset + 8];
    assert here[EVENT_HEADER_SIZE..RecordEnd(here)] == buf[offset + EVENT_HEADER_SIZE..end];
    assert Printed(here) == PrintedAt(buf, offset);
    if next <= |buf| { assert here[RecordEnd(here)..] == buf[next..]; } else { assert here[RecordEnd(here)..] == []; }
    assert Parse(here) == Outcome(Printed(here) + Parse(here[RecordEnd(here)..]).names,
                                  Parse(here[RecordEnd(here)..]).ok);
  }

  lemma NamesAssociate(a: seq<Bytes>, b: seq<Bytes>, c: seq<Bytes>)
    ensures (a + b) + c == a + (b + c)
  {
  }

  /** The loop over one buffer.  It reads only inside the buffer, and the offset
      grows by at least a header each time round. */
  method Watch(buf: Bytes) returns (printed: seq<Bytes>, ok: bool)
    ensures Outcome(printed, ok) == Parse(buf)
  {
    printed, ok := [], true;
    var offset: nat := 0;
    assert buf[0..] == buf;
    while offset < |buf|
      invariant Parse(buf) == Outcome(printed + ParseFrom(buf, offset).names, ParseFrom(buf, offset).ok)
      decreases |buf| - offset
    {
      if |buf| - offset < EVENT_HEADER_SIZE { return printed, false; }
      Advances(buf, offset);
      NamesAssociate(printed, PrintedAt(buf, offset), ParseFrom(buf, NextOffset(buf, offset)).names);
      printed, offset := WatchRecord(buf, offset, printed);
    }
  }

  /** One time round the loop. */
  method WatchRecord(buf: Bytes, at: nat, before: seq<Bytes>) returns (printed: seq<Bytes>, offset: nat)
    requires at + EVENT_HEADER_SIZE <= |buf|
    ensures printed == before + PrintedAt(buf, at) && offset == NextOffset(buf, at) >= at + EVENT_HEADER_SIZE
  {
    printed, offset := before, at;
    var mask, nameLen := Unpack(buf[offset + 4..offset + 8]), Unpack(buf[offset + 12..offset + 16]);
    offset := offset + EVENT_HEADER_SIZE;
    if nameLen > 0 {
      var name := RStrip(buf[offset..if offset + nameLen <= |buf| then offset + nameLen else |buf|]);
      if IsCloseWrite(mask) { printed := printed + [name]; }
    }
    offset := offset + nameLen;
  }

  // ---------------------------------------------------------------------
  // The record layout

  type uint32 = n: int | 0 <= n < 0x1_0000_0000

  /** A record: its name is followed by pad null bytes. */
  datatype Event = Event(wd: uint32, mask: uint32, cookie: uint32, name: Bytes, pad: nat)

  /** A file name holds no null byte, and the length field has 32 bits. */
  predicate WellFormed(e: Event) { (e.name != [] ==> e.name[|e.name| - 1] != 0) && |e.name| + e.pad < 0x1_0000_0000 }

  function Pack(n: uint32): (b: Bytes)
    ensures |b| == 4 && Unpack(b) == n
  {
    [n % 256, n / 256 % 256, n / 256 / 256 % 256, n / 256 / 256 / 256]
  }

  function Zeros(n: nat): Bytes { seq(n, _ => 0) }

  function Encode(e: Event): (b: Bytes)
    requires WellFormed(e)
    ensures |b| == EVENT_HEADER_SIZE + |e.name| + e.pad
  {
    Pack(e.wd) + Pack(e.mask) + Pack(e.cookie) + Pack(|e.name| + e.pad) + e.name + Zeros(e.pad)
  }

  predicate AllWellFormed(events: seq<Event>) { forall i :: 0 <= i < |events| ==> WellFormed(events[i]) }

  function EncodeAll(events: seq<Event>): Bytes
    requires AllWellFormed(events)
  {
    if events == [] then [] else Encode(events[0]) + EncodeAll(events[1..])
  }

  /** What ought to be printed for a record: the name of a file that was closed after writing. */
  function NameOf(e: Event): seq<Bytes> {
    if |e.name| + e.pad > 0 && IsCloseWrite(e.mask) then [e.name] else []
  }

  function NamesOf(events: seq<Event>): seq<Bytes> {
    if events == [] then [] else NameOf(events[0]) + NamesOf(events[1..])
  }

  lemma HeaderFields(e: Event, rest: Bytes)
    requires WellFormed(e)
    ensures var buf := Encode(e) + rest;
            && |buf| >= EVENT_HEADER_SIZE && RecordEnd(buf) == |Encode(e)|
            && Unpack(buf[4..8]) == e.mask && Unpack(buf[12..16]) == |e.name| + e.pad
  {
    var buf := Encode(e) + rest;
    assert buf[4..8] == Pack(e.mask);
    assert buf[12..16] == Pack(|e.name| + e.pad);
  }

  lemma {:induction false} StripPadding(name: Bytes, pad: nat)
    requires name != [] ==> name[|name| - 1] != 0
    ensures RStrip(name + Zeros(pad)) == name
  {
    if pad == 0 {
      assert name + Zeros(0) == name;
    } else {
      var b := name + Zeros(pad);
      assert b[..|b| - 1] == name + Zeros(pad - 1);
      StripPadding(name, pad - 1);
    }
  }

  lemma ParsesRecord(e: Event, rest: Bytes)
    requires WellFormed(e)
    ensures Parse(Encode(e) + rest) == Outcome(NameOf(e) + Parse(rest).names, Parse(rest).ok)
  {
    var buf := Encode(e) + rest;
    HeaderFields(e, rest);
    StripPadding(e.name, e.pad);
    assert buf[RecordEnd(buf)..] == rest;
    assert buf[EVENT_HEADER_SIZE..RecordEnd(buf)] == e.name + Zeros(e.pad);
  }

  lemma Associates(a: Bytes, b: Bytes, c: Bytes)
    ensures (a + b) + c == a + (b + c)
  {
  }

  /** Records parse to exactly the close-write names, in order, and then the
      parse goes on with whatever follows them. */
  lemma {:induction false} ParsesRecords(events: seq<Event>, rest: Bytes)
    requires AllWellFormed(events)
    ensures Parse(EncodeAll(events) + rest) == Outcome(NamesOf(events) + Parse(rest).names, Parse(rest).ok)
  {
    if events == [] {
      assert EncodeAll(events) + rest == rest;
    } else {
      ParsesRecords(events[1..], rest);
      ParsesRecord(events[0], EncodeAll(events[1..]) + rest);
      Associates(Encode(events[0]), EncodeAll(events[1..]), rest);
      NamesAssociate(NameOf(events[0]), NamesOf(events[1..]), Parse(rest).names);
    }
  }

  /** The parser inverts the record layout. */
  lemma ParseInvertsEncode(events: seq<Event>)
    requires AllWellFormed(events)
    ensures Parse(EncodeAll(events)) == Outcome(NamesOf(events), true)
  {
    ParsesRecords(events, []);
    assert EncodeAll(events) + [] == EncodeAll(events);
  }

  /** A header that is cut off raises an error, after the names before it. */
  lemma TruncatedHeader(events: seq<Event>, rest: Bytes)
    requires AllWellFormed(events) && 0 < |rest| < EVENT_HEADER_SIZE
    ensures Parse(EncodeAll(events) + rest) == Outcome(NamesOf(events), false)
  {
    ParsesRecords(events, rest);
  }

  // ---------------------------------------------------------------------
  // Byte by byte

  /** Bit 3 of the mask is bit 3 of its lowest byte. */
  lemma CloseWriteBit(b: Bytes)
    requires |b| == 4
    ensures IsCloseWrite(Unpack(b)) <==> b[0] / 8 % 2 == 1
  {
    var low: int, rest: int := b[0], 16 * (b[1] as int) + 4096 * (b[2] as int) + 1048576 * (b[3] as int);
    assert Unpack(b) == low + 16 * rest;
    assert (low + 16 * rest) / 8 == low / 8 + 2 * rest;
  }

  /** A buffer of one record, by its bytes: the length of the name is in bytes
      12 to 15, the close-write flag in byte 4, and the name follows the header
      up to its padding. */
  lemma OneRecord(buf: Bytes, name: Bytes, pad: nat)
    requires |buf| == 16 + |name| + pad && buf[16..] == name + Zeros(pad) && (name != [] ==> name[|name| - 1] != 0)
    requires |name| + pad
             == buf[12] as int + 256 * (buf[13] as int) + 65536 * (buf[14] as int) + 16777216 * (buf[15] as int)
    ensures Parse(buf) == Outcome(if |name| + pad > 0 && buf[4] / 8 % 2 == 1 then [name] else [], true)
  {
    CloseWriteBit(buf[4..8]);
    StripPadding(name, pad);
    assert RecordEnd(buf) == |buf| && buf[EVENT_HEADER_SIZE..|buf|] == buf[16..];
    assert buf[RecordEnd(buf)..] == [];
  }

  /** A name that the buffer cuts off is printed as far as it goes, and that is no error. */
  lemma CutOffName(buf: Bytes)
    requires |buf| >= 16
    requires |buf| - 16
             < buf[12] as int + 256 * (buf[13] as int) + 65536 * (buf[14] as int) + 16777216 * (buf[15] as int)
    ensures Parse(buf) == Outcome(if buf[4] / 8 % 2 == 1 then [RStrip(buf[16..])] else [], true)
  {
    CloseWriteBit(buf[4..8]);
    assert RecordEnd(buf) == |buf| && buf[EVENT_HEADER_SIZE..|buf|] == buf[16..];
    assert buf[RecordEnd(buf)..] == [];
  }
}
