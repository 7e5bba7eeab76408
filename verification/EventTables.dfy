/** Decoders for the Miniserver's binary event tables. Doubles and texts are kept
    as their raw bytes, and an event keeps the 16 bytes of its UUID, of which
    `UuidOf` is the text. */
module EventTables {
  import opened AlexaModel

  type Byte = b: int | 0 <= b < 256

  datatype Decoded<+T> = Events(value: T) | Truncated

  // ----- Little-endian numbers and UUIDs ---------------------------------------------

  function ReadLE(bytes: seq<Byte>): nat {
    if bytes == [] then 0 else bytes[0] + 256 * ReadLE(bytes[1..])
  }

  function WriteLE(n: nat, width: nat): (r: seq<Byte>)
    ensures |r| == width
    decreases width, n
  {
    if width == 0 then [] else [n % 256] + WriteLE(n / 256, width - 1)
  }

  function Power(base: nat, exponent: nat): nat {
    if exponent == 0 then 1 else base * Power(base, exponent - 1)
  }

  lemma {:induction false} ReadLEBound(bytes: seq<Byte>)
    ensures ReadLE(bytes) < Power(256, |bytes|)
  {
    if bytes != [] { ReadLEBound(bytes[1..]); }
  }

  lemma {:induction false} ReadInvertsWrite(n: nat, width: nat)
    requires n < Power(256, width)
    ensures ReadLE(WriteLE(n, width)) == n
    decreases width
  {
    if width > 0 {
      assert n / 256 < Power(256, width - 1);
      ReadInvertsWrite(n / 256, width - 1);
      assert WriteLE(n, width)[1..] == WriteLE(n / 256, width - 1);
    }
  }

  lemma LowByte(b: Byte, rest: nat, n: nat)
    requires n == b + 256 * rest
    ensures n % 256 == b && n / 256 == rest
  {
  }

  lemma {:induction false} WriteInvertsRead(bytes: seq<Byte>)
    ensures WriteLE(ReadLE(bytes), |bytes|) == bytes
  {
    if bytes != [] {
      WriteInvertsRead(bytes[1..]);
      LowByte(bytes[0], ReadLE(bytes[1..]), ReadLE(bytes));
      assert bytes == [bytes[0]] + bytes[1..];
    }
  }

  function HexDigit(d: nat): char
    requires d < 16
  {
    if d < 10 then ('0' as int + d) as char else ('a' as int + d - 10) as char
  }

  /** `toString(16).padStart(width, '0')` of a number of at most `width` digits. */
  function Hex(n: nat, width: nat): (s: string)
    ensures |s| == width
    decreases width, n
  {
    if width == 0 then "" else Hex(n / 16, width - 1) + [HexDigit(n % 16)]
  }

  function HexBytes(bytes: seq<Byte>): (s: string)
    ensures |s| == 2 * |bytes|
  {
    if bytes == [] then "" else Hex(bytes[0], 2) + HexBytes(bytes[1..])
  }

  /** `readLoxoneUuid` on the 16 bytes of one UUID. */
  function UuidOf(b: seq<Byte>): (s: string)
    requires |b| == 16
    ensures |s| == 35
  {
    Hex(ReadLE(b[..4]), 8) + "-" + Hex(ReadLE(b[4..6]), 4) + "-" + Hex(ReadLE(b[6..8]), 4) + "-" + HexBytes(b[8..])
  }

  lemma {:induction false} HexInjective(a: nat, b: nat, width: nat)
    requires a < Power(16, width) && b < Power(16, width) && Hex(a, width) == Hex(b, width)
    ensures a == b
    decreases width
  {
    if width > 0 {
      var s, t := Hex(a, width), Hex(b, width);
      assert s[..width - 1] == Hex(a / 16, width - 1) && t[..width - 1] == Hex(b / 16, width - 1);
      assert s[width - 1] == HexDigit(a % 16) && t[width - 1] == HexDigit(b % 16);
      HexInjective(a / 16, b / 16, width - 1);
    }
  }

  lemma {:induction false} HexBytesInjective(a: seq<Byte>, b: seq<Byte>)
    requires |a| == |b| && HexBytes(a) == HexBytes(b)
    ensures a == b
  {
    if a != [] {
      assert HexBytes(a)[..2] == Hex(a[0], 2) && HexBytes(b)[..2] == Hex(b[0], 2);
      assert HexBytes(a)[2..] == HexBytes(a[1..]) && HexBytes(b)[2..] == HexBytes(b[1..]);
      assert Power(16, 2) == 256;
      HexInjective(a[0], b[0], 2);
      HexBytesInjective(a[1..], b[1..]);
      assert a == [a[0]] + a[1..] && b == [b[0]] + b[1..];
    }
  }

  lemma PowersMeet()
    ensures Power(16, 8) == Power(256, 4) && Power(16, 4) == Power(256, 2)
  {
    assert Power(16, 2) == 256 && Power(16, 4) == 65536 && Power(16, 6) == 16777216 && Power(16, 8) == 4294967296;
    assert Power(256, 2) == 65536 && Power(256, 3) == 16777216 && Power(256, 4) == 4294967296;
  }

  lemma FieldInjective(a: seq<Byte>, b: seq<Byte>, width: nat)
    requires |a| == |b| && Power(16, width) == Power(256, |a|)
    requires Hex(ReadLE(a), width) == Hex(ReadLE(b), width)
    ensures a == b
  {
    ReadLEBound(a);
    ReadLEBound(b);
    HexInjective(ReadLE(a), ReadLE(b), width);
    WriteInvertsRead(a);
    WriteInvertsRead(b);
  }

  lemma JoinInjective(a1: string, a2: string, a3: string, a4: string, b1: string, b2: string, b3: string, b4: string)
    requires |a1| == |b1| && |a2| == |b2| && |a3| == |b3|
    requires a1 + "-" + a2 + "-" + a3 + "-" + a4 == b1 + "-" + b2 + "-" + b3 + "-" + b4
    ensures a1 == b1 && a2 == b2 && a3 == b3 && a4 == b4
  {
    var s, t := a1 + "-" + a2 + "-" + a3 + "-" + a4, b1 + "-" + b2 + "-" + b3 + "-" + b4;
    var i, j := |a1| + 1, |a1| + |a2| + 2;
    assert a1 == s[..|a1|] && b1 == t[..|a1|];
    assert a2 == s[i..i + |a2|] && b2 == t[i..i + |a2|];
    assert a3 == s[j..j + |a3|] && b3 == t[j..j + |a3|];
    assert a4 == s[j + |a3| + 1..] && b4 == t[j + |a3| + 1..];
  }

  /** No two UUIDs look alike. */
  lemma UuidInjective(a: seq<Byte>, b: seq<Byte>)
    requires |a| == |b| == 16 && UuidOf(a) == UuidOf(b)
    ensures a == b
  {
    JoinInjective(Hex(ReadLE(a[..4]), 8), Hex(ReadLE(a[4..6]), 4), Hex(ReadLE(a[6..8]), 4), HexBytes(a[8..]),
                  Hex(ReadLE(b[..4]), 8), Hex(ReadLE(b[4..6]), 4), Hex(ReadLE(b[6..8]), 4), HexBytes(b[8..]));
    PowersMeet();
    FieldInjective(a[..4], b[..4], 8);
    FieldInjective(a[4..6], b[4..6], 4);
    FieldInjective(a[6..8], b[6..8], 4);
    HexBytesInjective(a[8..], b[8..]);
    assert a == a[..4] + a[4..6] + a[6..8] + a[8..] && b == b[..4] + b[4..6] + b[6..8] + b[8..];
  }

  /** What is left of a buffer from an offset on, which may lie past its end. */
  function From(buf: seq<Byte>, off: nat): seq<Byte> {
    if off <= |buf| then buf[off..] else []
  }

  function Prepend<T>(events: seq<T>, rest: Decoded<seq<T>>): Decoded<seq<T>> {
    match rest
    case Events(more) => Events(events + more)
    case Truncated => Truncated
  }

  lemma PrependNothing<T>(rest: Decoded<seq<T>>)
    ensures Prepend([], rest) == rest
  {
    if rest.Events? { assert [] + rest.value == rest.value; }
  }

  lemma PrependToNothing<T>(events: seq<T>)
    ensures Prepend(events, Events([])) == Events(events)
  {
    assert events + [] == events;
  }

  lemma PrependAssociates<T>(a: seq<T>, e: T, rest: Decoded<seq<T>>)
    ensures Prepend(a, Prepend([e], rest)) == Prepend(a + [e], rest)
  {
    if rest.Events? { assert a + ([e] + rest.value) == (a + [e]) + rest.value; }
  }

  // ----- Value events: 24 bytes each -----------------------------------------------------

  datatype ValueEvent = ValueEvent(uuid: seq<Byte>, value: seq<Byte>)

  predicate ValueFits(e: ValueEvent) {
    |e.uuid| == 16 && |e.value| == 8
  }

  function EncodeValues(es: seq<ValueEvent>): seq<Byte> {
    if es == [] then [] else es[0].uuid + es[0].value + EncodeValues(es[1..])
  }

  function ReadValues(buf: seq<Byte>): (es: seq<ValueEvent>)
    requires |buf| % 24 == 0
    ensures forall i :: 0 <= i < |es| ==> ValueFits(es[i])
  {
    if buf == [] then [] else [ValueEvent(buf[..16], buf[16..24])] + ReadValues(buf[24..])
  }

  /** `decodeValueEvents` */
  method DecodeValueEvents(buf: seq<Byte>) returns (r: Decoded<seq<ValueEvent>>)
    ensures r == if |buf| % 24 == 0 then Events(ReadValues(buf)) else Truncated
  {
    if |buf| % 24 != 0 { return Truncated; }
    var events: seq<ValueEvent> := [];
    var off := 0;
    assert buf[0..] == buf && [] + ReadValues(buf) == ReadValues(buf);
    while off < |buf|
      invariant 0 <= off <= |buf| && off % 24 == 0
      invariant ReadValues(buf) == events + ReadValues(buf[off..])
      decreases |buf| - off
    {
      ReadNextValue(buf, off, events);
      events := events + [ValueAt(buf, off)];
      off := off + 24;
    }
    assert events + [] == events;
    return Events(events);
  }

  function ValueAt(buf: seq<Byte>, off: nat): ValueEvent
    requires off + 24 <= |buf|
  {
    ValueEvent(buf[off..off + 16], buf[off + 16..off + 24])
  }

  lemma ReadNextValue(buf: seq<Byte>, off: nat, before: seq<ValueEvent>)
    requires off + 24 <= |buf| && (|buf| - off) % 24 == 0
    ensures before + ReadValues(buf[off..]) == (before + [ValueAt(buf, off)]) + ReadValues(buf[off + 24..])
  {
    var rest := buf[off..];
    assert rest[..16] == buf[off..off + 16] && rest[16..24] == buf[off + 16..off + 24] && rest[24..] == buf[off + 24..];
    assert ReadValues(rest) == [ValueAt(buf, off)] + ReadValues(buf[off + 24..]);
  }

  /** Decoding the encoding returns the list. */
  lemma {:induction false} ValuesRoundTrip(es: seq<ValueEvent>)
    requires forall i :: 0 <= i < |es| ==> ValueFits(es[i])
    ensures |EncodeValues(es)| == 24 * |es|
    ensures ReadValues(EncodeValues(es)) == es
  {
    if es != [] {
      ValuesRoundTrip(es[1..]);
      var buf := EncodeValues(es);
      assert ValueFits(es[0]);
      assert buf[..16] == es[0].uuid && buf[16..24] == es[0].value && buf[24..] == EncodeValues(es[1..]);
      assert es == [es[0]] + es[1..];
    }
  }

  /** Every buffer whose length is a multiple of 24 is the encoding of exactly the
      events it decodes to. */
  lemma {:induction false} ValuesAreAllBuffers(buf: seq<Byte>)
    requires |buf| % 24 == 0
    ensures EncodeValues(ReadValues(buf)) == buf
  {
    if buf != [] {
      ValuesAreAllBuffers(buf[24..]);
      assert buf == buf[..16] + buf[16..24] + buf[24..];
      assert ReadValues(buf)[1..] == ReadValues(buf[24..]);
    }
  }

  // ----- Text events: length-prefixed, padded to 4 bytes -------------------------------------

  datatype RawText = RawText(uuid: seq<Byte>, icon: seq<Byte>, text: seq<Byte>, fill: seq<Byte>)

  datatype TextEvent = TextEvent(uuid: seq<Byte>, iconUuid: seq<Byte>, text: seq<Byte>)

  /** `(4 - consumed % 4) % 4` */
  function PadLength(textLength: nat): (p: nat)
    ensures p < 4 && (36 + textLength + p) % 4 == 0
  {
    (4 - (36 + textLength) % 4) % 4
  }

  /** A text entry; only the last one may lack padding, and the padding bytes may be
      anything. */
  predicate TextFits(e: RawText, last: bool) {
    && |e.uuid| == 16 && |e.icon| == 16 && |e.text| < Power(256, 4)
    && (if last then |e.fill| <= PadLength(|e.text|) else |e.fill| == PadLength(|e.text|))
  }

  predicate TextsFit(es: seq<RawText>) {
    forall i :: 0 <= i < |es| ==> TextFits(es[i], i == |es| - 1)
  }

  function EncodeText(e: RawText): seq<Byte> {
    e.uuid + e.icon + WriteLE(|e.text|, 4) + e.text + e.fill
  }

  function EncodeTexts(es: seq<RawText>): seq<Byte> {
    if es == [] then [] else EncodeText(es[0]) + EncodeTexts(es[1..])
  }

  /** What is left of an entry once its padding is gone. */
  function EventOf(e: RawText): TextEvent {
    TextEvent(e.uuid, e.icon, e.text)
  }

  function EventsOf(es: seq<RawText>): seq<TextEvent> {
    if es == [] then [] else [EventOf(es[0])] + EventsOf(es[1..])
  }

  /** The entry at the front of a buffer and the distance to the next one. */
  function TextHead(buf: seq<Byte>): (r: Option<(TextEvent, nat)>)
    ensures r.Some? ==> r.value.1 >= 36
  {
    if |buf| < 36 then None
    else
      var length := ReadLE(buf[32..36]);
      if 36 + length > |buf| then None
      else Some((TextEvent(buf[..16], buf[16..32], buf[36..36 + length]), 36 + length + PadLength(length)))
  }

  /** The decoder on what is left of the buffer. */
  function ReadTexts(buf: seq<Byte>): Decoded<seq<TextEvent>>
    decreases |buf|
  {
    if buf == [] then Events([])
    else
      match TextHead(buf)
      case None => Truncated
      case Some((e, step)) => Prepend([e], ReadTexts(From(buf, step)))
  }

  /** `decodeTextEvents` */
  method DecodeTextEvents(buf: seq<Byte>) returns (r: Decoded<seq<TextEvent>>)
    ensures r == ReadTexts(buf)
  {
    var events: seq<TextEvent> := [];
    var off: nat := 0;
    ghost var rest := buf;
    ghost var all := ReadTexts(buf);
    ghost var todo := all;
    PrependNothing(all);
    while off < |buf|
      invariant rest == From(buf, off) && todo == ReadTexts(rest) && all == Prepend(events, todo)
      decreases |buf| - off
    {
      var head := TextHeadAt(buf, off);
      if head.None? {
        NoNextText(rest);
        return Truncated;
      }
      ghost var tail := From(buf, off + head.value.1);
      FromFrom(buf, off, head.value.1);
      NextText(rest, head.value.0, head.value.1, tail);
      todo := ReadTexts(tail);
      PrependAssociates(events, head.value.0, todo);
      rest := tail;
      events := events + [head.value.0];
      off := off + head.value.1;
    }
    NothingLeft(rest, events);
    return Events(events);
  }

  lemma NothingLeft(rest: seq<Byte>, events: seq<TextEvent>)
    requires rest == []
    ensures Prepend(events, ReadTexts(rest)) == Events(events)
  {
    PrependToNothing(events);
  }

  /** One entry of a buffer that goes on with `tail`. */
  lemma NextText(rest: seq<Byte>, e: TextEvent, step: nat, tail: seq<Byte>)
    requires rest != [] && TextHead(rest) == Some((e, step)) && tail == From(rest, step)
    ensures ReadTexts(rest) == Prepend([e], ReadTexts(tail))
  {
  }

  lemma NoNextText(rest: seq<Byte>)
    requires rest != [] && TextHead(rest) == None
    ensures ReadTexts(rest) == Truncated
  {
  }

  /** The entry at `off` and the distance to the next one; None stands for the two
      exceptions. */
  method TextHeadAt(buf: seq<Byte>, off: nat) returns (r: Option<(TextEvent, nat)>)
    requires off <= |buf|
    ensures r == TextHead(From(buf, off))
  {
    ghost var rest := From(buf, off);
    if off + 36 > |buf| { return None; }
    assert rest[32..36] == buf[off + 32..off + 36];
    var textLength := ReadLE(buf[off + 32..off + 36]);
    var textStart := off + 36;
    var textEnd := textStart + textLength;
    if textEnd > |buf| { return None; }
    assert rest[..16] == buf[off..off + 16] && rest[16..32] == buf[off + 16..off + 32];
    assert rest[36..36 + textLength] == buf[textStart..textEnd];
    var consumed := 36 + textLength;
    return Some((TextEvent(buf[off..off + 16], buf[off + 16..off + 32], buf[textStart..textEnd]), consumed + PadLength(textLength)));
  }

  lemma FromFrom(buf: seq<Byte>, off: nat, step: nat)
    requires off <= |buf|
    ensures From(From(buf, off), step) == From(buf, off + step)
  {
  }

  lemma SlicesOfText(u: seq<Byte>, i: seq<Byte>, n: seq<Byte>, t: seq<Byte>, f: seq<Byte>, rest: seq<Byte>)
    requires |u| == 16 && |i| == 16 && |n| == 4
    ensures var buf := u + i + n + t + f + rest;
      && buf[..16] == u && buf[16..32] == i && buf[32..36] == n && buf[36..36 + |t|] == t
      && buf[36 + |t| + |f|..] == rest
  {
  }

  /** One entry in front of a buffer that begins at its padded end. */
  lemma ReadOneText(e: RawText, rest: seq<Byte>, last: bool)
    requires TextFits(e, last) && (last ==> rest == [])
    ensures ReadTexts(EncodeText(e) + rest) == Prepend([EventOf(e)], ReadTexts(rest))
  {
    var buf := EncodeText(e) + rest;
    var length := |e.text|;
    SlicesOfText(e.uuid, e.icon, WriteLE(length, 4), e.text, e.fill, rest);
    ReadInvertsWrite(length, 4);
    assert TextHead(buf) == Some((EventOf(e), 36 + length + PadLength(length)));
    assert From(buf, 36 + length + PadLength(length)) == rest;
  }

  lemma TailFits(es: seq<RawText>)
    requires es != [] && TextsFit(es)
    ensures TextsFit(es[1..]) && TextFits(es[0], |es| == 1)
  {
    forall i | 0 <= i < |es[1..]| ensures TextFits(es[1..][i], i == |es[1..]| - 1) {
      assert es[1..][i] == es[i + 1];
    }
  }

  /** Decoding the encoding returns the list, whatever the padding bytes are and
      whether or not the last entry is padded. */
  lemma {:induction false} TextsRoundTrip(es: seq<RawText>)
    requires TextsFit(es)
    ensures ReadTexts(EncodeTexts(es)) == Events(EventsOf(es))
  {
    if es != [] {
      TailFits(es);
      TextsRoundTrip(es[1..]);
      ReadOneText(es[0], EncodeTexts(es[1..]), |es| == 1);
    }
  }

  /** The entry at the front of a buffer, with as much padding as there is. */
  function FirstText(buf: seq<Byte>, length: nat): (e: RawText)
    requires 36 + length <= |buf|
  {
    var end := 36 + length;
    var stop := end + PadLength(length);
    RawText(buf[..16], buf[16..32], buf[36..end], buf[end..if stop <= |buf| then stop else |buf|])
  }

  lemma FirstTextIsPrefix(buf: seq<Byte>, length: nat)
    requires 36 + length <= |buf| && length == ReadLE(buf[32..36])
    ensures TextFits(FirstText(buf, length), From(buf, 36 + length + PadLength(length)) == [])
    ensures buf == EncodeText(FirstText(buf, length)) + From(buf, 36 + length + PadLength(length))
  {
    ReadLEBound(buf[32..36]);
    WriteInvertsRead(buf[32..36]);
    var e := FirstText(buf, length);
    CutText(buf, 36 + length, 36 + length + |e.fill|);
  }

  lemma CutText(buf: seq<Byte>, end: nat, stop: nat)
    requires 36 <= end <= stop <= |buf|
    ensures buf == buf[..16] + buf[16..32] + buf[32..36] + buf[36..end] + buf[end..stop] + buf[stop..]
  {
  }

  lemma ConsFits(e: RawText, es: seq<RawText>)
    requires TextFits(e, es == []) && TextsFit(es)
    ensures TextsFit([e] + es)
  {
    forall i | 0 <= i < |[e] + es| ensures TextFits(([e] + es)[i], i == |[e] + es| - 1) {
      if i > 0 { assert ([e] + es)[i] == es[i - 1]; }
    }
  }

  /** A buffer that decodes was laid out as documented: nothing else is accepted. */
  lemma {:induction false} DecodedTextsWereEncoded(buf: seq<Byte>) returns (es: seq<RawText>)
    requires ReadTexts(buf).Events?
    ensures TextsFit(es) && EncodeTexts(es) == buf
    decreases |buf|
  {
    if buf == [] {
      es := [];
    } else {
      var length := ReadLE(buf[32..36]);
      var tail := From(buf, 36 + length + PadLength(length));
      var rest := DecodedTextsWereEncoded(tail);
      FirstTextIsPrefix(buf, length);
      if rest != [] { EncodedTextsNonEmpty(rest); }
      ConsFits(FirstText(buf, length), rest);
      es := [FirstText(buf, length)] + rest;
      assert es[1..] == rest;
    }
  }

  lemma EncodedTextsNonEmpty(es: seq<RawText>)
    requires es != [] && TextsFit(es)
    ensures EncodeTexts(es) != []
  {
    TailFits(es);
  }

  // ----- Day timers and weather: a counted run of fixed-size entries ---------------------------

  /** `header` bytes, the last four of them the count, then the entries. */
  datatype Layout = Layout(header: nat, entry: nat)

  const DAYTIMER := Layout(28, 24)
  const WEATHER := Layout(24, 68)

  datatype RawRecord = RawRecord(uuid: seq<Byte>, extra: seq<Byte>, count: nat, entries: seq<Byte>)

  datatype Counted = Counted(uuid: seq<Byte>, extra: seq<Byte>, count: nat)

  predicate RecordFits(r: RawRecord, l: Layout) {
    && |r.uuid| == 16 && 16 + |r.extra| + 4 == l.header
    && r.count < Power(256, 4) && l.header + |r.entries| == RecordEnd(l, r.count)
  }

  function EncodeRecord(r: RawRecord): seq<Byte> {
    r.uuid + r.extra + WriteLE(r.count, 4) + r.entries
  }

  function EncodeRecords(rs: seq<RawRecord>): seq<Byte> {
    if rs == [] then [] else EncodeRecord(rs[0]) + EncodeRecords(rs[1..])
  }

  function CountedOf(rs: seq<RawRecord>): seq<Counted> {
    if rs == [] then [] else [Counted(rs[0].uuid, rs[0].extra, rs[0].count)] + CountedOf(rs[1..])
  }

  /** A tail shorter than a header ends the table. */
  function ReadRecords(buf: seq<Byte>, l: Layout): Decoded<seq<Counted>>
    requires l.header >= 20
    decreases |buf|
  {
    if |buf| < l.header then Events([])
    else
      var count := ReadLE(buf[l.header - 4..l.header]);
      var end := RecordEnd(l, count);
      if end > |buf| then Truncated
      else Prepend([Counted(buf[..16], buf[16..l.header - 4], count)], ReadRecords(buf[end..], l))
  }

  function RecordEnd(l: Layout, count: nat): (end: nat)
    ensures end >= l.header
  {
    l.header + count * l.entry
  }

  /** One round of the loop. */
  lemma ReadNextRecord(buf: seq<Byte>, off: nat, l: Layout)
    requires l.header >= 20 && off + l.header <= |buf|
    ensures var count := ReadLE(buf[off + l.header - 4..off + l.header]);
      var end := off + RecordEnd(l, count);
      ReadRecords(buf[off..], l) ==
        if end > |buf| then Truncated
        else Prepend([Counted(buf[off..off + 16], buf[off + 16..off + l.header - 4], count)], ReadRecords(buf[end..], l))
  {
    var rest := buf[off..];
    assert rest[l.header - 4..l.header] == buf[off + l.header - 4..off + l.header];
    assert rest[..16] == buf[off..off + 16] && rest[16..l.header - 4] == buf[off + 16..off + l.header - 4];
    var end := RecordEnd(l, ReadLE(rest[l.header - 4..l.header]));
    if off + end <= |buf| { assert rest[end..] == buf[off + end..]; }
  }

  /** `decodeDaytimerEvents` */
  method DecodeDaytimerEvents(buf: seq<Byte>) returns (r: Decoded<seq<Counted>>)
    ensures r == ReadRecords(buf, DAYTIMER)
  {
    var events: seq<Counted> := [];
    var off := 0;
    PrependNothing(ReadRecords(buf, DAYTIMER));
    assert buf[0..] == buf;
    while off + 28 <= |buf|
      invariant off <= |buf|
      invariant ReadRecords(buf, DAYTIMER) == Prepend(events, ReadRecords(buf[off..], DAYTIMER))
      decreases |buf| - off
    {
      ReadNextRecord(buf, off, DAYTIMER);
      var nrEntries := ReadLE(buf[off + 24..off + 28]);
      var end := off + 28 + nrEntries * 24;
      if end > |buf| { return Truncated; }
      var event := Counted(buf[off..off + 16], buf[off + 16..off + 24], nrEntries);
      PrependAssociates(events, event, ReadRecords(buf[end..], DAYTIMER));
      events := events + [event];
      off := end;
    }
    PrependToNothing(events);
    return Events(events);
  }

  /** `decodeWeatherEvents` */
  method DecodeWeatherEvents(buf: seq<Byte>) returns (r: Decoded<seq<Counted>>)
    ensures r == ReadRecords(buf, WEATHER)
  {
    var events: seq<Counted> := [];
    var off := 0;
    PrependNothing(ReadRecords(buf, WEATHER));
    assert buf[0..] == buf;
    while off + 24 <= |buf|
      invariant off <= |buf|
      invariant ReadRecords(buf, WEATHER) == Prepend(events, ReadRecords(buf[off..], WEATHER))
      decreases |buf| - off
    {
      ReadNextRecord(buf, off, WEATHER);
      var nrEntries := ReadLE(buf[off + 20..off + 24]);
      var end := off + 24 + nrEntries * 68;
      if end > |buf| { return Truncated; }
      var event := Counted(buf[off..off + 16], buf[off + 16..off + 20], nrEntries);
      PrependAssociates(events, event, ReadRecords(buf[end..], WEATHER));
      events := events + [event];
      off := end;
    }
    PrependToNothing(events);
    return Events(events);
  }

  lemma SlicesOfRecord(u: seq<Byte>, x: seq<Byte>, n: seq<Byte>, t: seq<Byte>, rest: seq<Byte>)
    requires |u| == 16 && |n| == 4
    ensures var buf := u + x + n + t + rest;
      && buf[..16] == u && buf[16..16 + |x|] == x && buf[16 + |x|..20 + |x|] == n && buf[20 + |x| + |t|..] == rest
  {
  }

  lemma ReadOneRecord(r: RawRecord, rest: seq<Byte>, l: Layout)
    requires RecordFits(r, l)
    ensures ReadRecords(EncodeRecord(r) + rest, l)
         == Prepend([Counted(r.uuid, r.extra, r.count)], ReadRecords(rest, l))
  {
    var buf := EncodeRecord(r) + rest;
    ReadInvertsWrite(r.count, 4);
    SlicesOfRecord(r.uuid, r.extra, WriteLE(r.count, 4), r.entries, rest);
    ReadNextRecord(buf, 0, l);
    assert buf[0..] == buf;
  }

  /** Decoding the encoding returns the records; fewer bytes than a header left over
      at the end are ignored. */
  lemma {:induction false} RecordsRoundTrip(rs: seq<RawRecord>, tail: seq<Byte>, l: Layout)
    requires forall i :: 0 <= i < |rs| ==> RecordFits(rs[i], l)
    requires l.header >= 20 && |tail| < l.header
    ensures ReadRecords(EncodeRecords(rs) + tail, l) == Events(CountedOf(rs))
  {
    if rs == [] {
      assert EncodeRecords(rs) + tail == tail;
    } else {
      RecordsRoundTrip(rs[1..], tail, l);
      assert EncodeRecords(rs) + tail == EncodeRecord(rs[0]) + (EncodeRecords(rs[1..]) + tail);
      ReadOneRecord(rs[0], EncodeRecords(rs[1..]) + tail, l);
    }
  }

  function FirstRecord(buf: seq<Byte>, l: Layout): RawRecord
    requires l.header >= 20 && |buf| >= l.header && RecordEnd(l, ReadLE(buf[l.header - 4..l.header])) <= |buf|
  {
    var count := ReadLE(buf[l.header - 4..l.header]);
    RawRecord(buf[..16], buf[16..l.header - 4], count, buf[l.header..RecordEnd(l, count)])
  }

  lemma FirstRecordIsPrefix(buf: seq<Byte>, l: Layout)
    requires l.header >= 20 && |buf| >= l.header && RecordEnd(l, ReadLE(buf[l.header - 4..l.header])) <= |buf|
    ensures RecordFits(FirstRecord(buf, l), l)
    ensures buf == EncodeRecord(FirstRecord(buf, l)) + buf[RecordEnd(l, ReadLE(buf[l.header - 4..l.header]))..]
  {
    var count := ReadLE(buf[l.header - 4..l.header]);
    var end := RecordEnd(l, count);
    ReadLEBound(buf[l.header - 4..l.header]);
    WriteInvertsRead(buf[l.header - 4..l.header]);
    assert buf[..end] == buf[..16] + buf[16..l.header - 4] + buf[l.header - 4..l.header] + buf[l.header..end];
    assert buf == buf[..end] + buf[end..];
  }

  /** A buffer that decodes is a run of complete records and a short tail: an entry
      body running past the end is never accepted. */
  lemma {:induction false} DecodedRecordsWereEncoded(buf: seq<Byte>, l: Layout) returns (rs: seq<RawRecord>, tail: seq<Byte>)
    requires l.header >= 20 && ReadRecords(buf, l).Events?
    ensures forall i :: 0 <= i < |rs| ==> RecordFits(rs[i], l)
    ensures |tail| < l.header && buf == EncodeRecords(rs) + tail
    decreases |buf|
  {
    if |buf| < l.header {
      rs, tail := [], buf;
      assert EncodeRecords(rs) + tail == buf;
    } else {
      var end := RecordEnd(l, ReadLE(buf[l.header - 4..l.header]));
      FirstRecordIsPrefix(buf, l);
      var more;
      more, tail := DecodedRecordsWereEncoded(buf[end..], l);
      rs := [FirstRecord(buf, l)] + more;
      assert rs[1..] == more;
      assert EncodeRecord(rs[0]) + (EncodeRecords(more) + tail) == (EncodeRecord(rs[0]) + EncodeRecords(more)) + tail;
    }
  }
}
