/** The pkt-line framing of Git's smart protocol, as the pusher writes and reads it, on bytes. */
module PktLine {
  import opened Options

  type Bytes = seq<nat>

  const HEADER: nat := 4

  function HexDigit(d: nat): (c: nat)
    requires d < 16
    ensures HexValue(c) == Some(d)
  {
    if d < 10 then 48 + d else 87 + d
  }

  function HexValue(c: nat): (d: Option<nat>)
    ensures d.Some? ==> d.value < 16
  {
    if 48 <= c <= 57 then Some(c - 48)
    else if 97 <= c <= 102 then Some(c - 87)
    else if 65 <= c <= 70 then Some(c - 55)
    else None
  }

  // Number.prototype.toString(16).
  function ToHex(n: nat): (text: Bytes)
    ensures |text| >= 1
  {
    if n < 16 then [HexDigit(n)] else ToHex(n / 16) + [HexDigit(n % 16)]
  }

  function PadStart(text: Bytes, width: nat): Bytes
    decreases width - |text|
  {
    if |text| >= width then text else PadStart([48] + text, width)
  }

  // One packet; the length counts its own four digits.
  function PktLine(payload: Bytes): Bytes {
    PadStart(ToHex(|payload| + HEADER), HEADER) + payload
  }

  predicate IsHex(text: Bytes) {
    forall c | c in text :: HexValue(c).Some?
  }

  function HexNumber(text: Bytes): nat
    requires IsHex(text)
  {
    if text == [] then 0 else 16 * HexNumber(text[..|text| - 1]) + HexValue(text[|text| - 1]).value
  }

  // `parse` is parseInt on the decoded header in base 16; None is NaN. On four hex digits it is their value.
  ghost predicate ReadsHex(parse: Bytes -> Option<int>) {
    forall text | |text| == HEADER && IsHex(text) :: parse(text) == Some(HexNumber(text))
  }

  // A relative index: subarray counts a negative one from the end.
  function At(i: int, body: Bytes): nat {
    if i >= 0 then if i < |body| then i else |body|
    else if |body| + i >= 0 then |body| + i else 0
  }

  // subarray is empty when its end is not past its start.
  function Subarray(body: Bytes, start: int, end: int): Bytes {
    if At(start, body) < At(end, body) then body[At(start, body)..At(end, body)] else []
  }

  // The loop: before the packet at an offset with the lines so far, or over, or thrown.
  datatype Reader = Reading(offset: int, lines: seq<Bytes>) | Ended(lines: seq<Bytes>) | Malformed

  function Begin(): Reader {
    Reading(0, [])
  }

  // A position at or after one bound and before the other; a negative bound is held against positions counted
  // from the end of a body of the length, -1 being the last.
  predicate Between(length: nat, start: int, k: nat, end: int) {
    (if start >= 0 then start <= k else start <= k - length) && (if end >= 0 then k < end else k - length < end)
  }

  /** A slice is one range of the body: the positions between its bounds. */
  lemma SubarrayIs(body: Bytes, start: int, end: int) returns (from: nat)
    ensures var slice := Subarray(body, start, end);
      && from + |slice| <= |body| && slice == body[from..from + |slice|]
      && forall k | 0 <= k < |body| :: from <= k < from + |slice| <==> Between(|body|, start, k, end)
  {
    from := At(start, body);
  }

  function HeaderAt(body: Bytes, offset: int): Bytes {
    Subarray(body, offset, offset + HEADER)
  }

  // One turn of the loop. A header with a sign moves the offset back, even below zero.
  function Turn(parse: Bytes -> Option<int>, body: Bytes, r: Reader): Reader {
    if !r.Reading? then r
    else if r.offset + HEADER > |body| then Ended(r.lines)
    else
      match parse(HeaderAt(body, r.offset))
      case None => Malformed
      case Some(length) =>
        if length == 0 then Reading(r.offset + HEADER, r.lines)
        else Reading(r.offset + length, r.lines + [Subarray(body, r.offset + HEADER, r.offset + length)])
  }

  function After(parse: Bytes -> Option<int>, body: Bytes, r: Reader, turns: nat): Reader
    decreases turns
  {
    if turns == 0 then r else After(parse, body, Turn(parse, body, r), turns - 1)
  }

  ghost predicate Ends(parse: Bytes -> Option<int>, body: Bytes) {
    exists n: nat :: !After(parse, body, Begin(), n).Reading?
  }

  // Reading the body comes to this result.
  ghost predicate Reads(parse: Bytes -> Option<int>, body: Bytes, result: Reader) {
    !result.Reading? && exists n: nat :: After(parse, body, Begin(), n) == result
  }

  lemma {:induction false} AfterAdds(parse: Bytes -> Option<int>, body: Bytes, r: Reader, m: nat, n: nat)
    ensures After(parse, body, r, m + n) == After(parse, body, After(parse, body, r, m), n)
    decreases m
  {
    if m > 0 {
      AfterAdds(parse, body, Turn(parse, body, r), m - 1, n);
    }
  }

  lemma {:induction false} OverStaysOver(parse: Bytes -> Option<int>, body: Bytes, r: Reader, n: nat)
    requires !r.Reading?
    ensures After(parse, body, r, n) == r
  {
    if n > 0 {
      OverStaysOver(parse, body, r, n - 1);
    }
  }

  lemma OneMore(parse: Bytes -> Option<int>, body: Bytes, r: Reader, n: nat)
    ensures After(parse, body, r, n + 1) == Turn(parse, body, After(parse, body, r, n))
  {
    AfterAdds(parse, body, r, n, 1);
    var end := After(parse, body, r, n);
    assert After(parse, body, end, 1) == After(parse, body, Turn(parse, body, end), 0);
  }

  /** A body reads to one result only. */
  lemma ReadsOneResult(parse: Bytes -> Option<int>, body: Bytes, a: Reader, b: Reader)
    requires Reads(parse, body, a) && Reads(parse, body, b)
    ensures a == b
  {
    var m: nat :| After(parse, body, Begin(), m) == a;
    var n: nat :| After(parse, body, Begin(), n) == b;
    if m <= n {
      AfterAdds(parse, body, Begin(), m, n - m);
      OverStaysOver(parse, body, a, n - m);
    } else {
      AfterAdds(parse, body, Begin(), n, m - n);
      OverStaysOver(parse, body, b, m - n);
    }
  }

  /** The reader loop, on every body on which it ends. */
  method ReadPktLines(parse: Bytes -> Option<int>, body: Bytes) returns (result: Reader)
    requires Ends(parse, body)
    ensures Reads(parse, body, result)
  {
    ghost var end: nat :| !After(parse, body, Begin(), end).Reading?;
    ghost var n: nat := 0;
    var offset, lines := 0, [];
    while offset + HEADER <= |body|
      invariant n <= end && After(parse, body, Begin(), n) == Reading(offset, lines)
      decreases end - n
    {
      OneMore(parse, body, Begin(), n);
      var length := parse(Subarray(body, offset, offset + HEADER));
      offset := offset + HEADER;
      if length.None? {
        return Malformed;
      }
      n := n + 1;
      if length.value != 0 {
        lines := lines + [Subarray(body, offset, offset + length.value - HEADER)];
        offset := offset + length.value - HEADER;
      }
    }
    OneMore(parse, body, Begin(), n);
    result := Ended(lines);
  }

  lemma {:induction false} ToHexReadsBack(n: nat)
    ensures IsHex(ToHex(n)) && HexNumber(ToHex(n)) == n
  {
    if n >= 16 {
      ToHexReadsBack(n / 16);
      var text := ToHex(n);
      assert text[..|text| - 1] == ToHex(n / 16);
    } else {
      assert ToHex(n)[..0] == [];
    }
  }

  lemma {:induction false} ToHexLeads(n: nat)
    requires n > 0
    ensures HexValue(ToHex(n)[0]).Some? && HexValue(ToHex(n)[0]).value > 0
  {
    if n >= 16 {
      ToHexLeads(n / 16);
    }
  }

  lemma {:induction false} LeadingDigit(text: Bytes)
    requires text != [] && IsHex(text) && HexValue(text[0]).value > 0
    ensures HexNumber(text) > 0
  {
    if |text| > 1 {
      LeadingDigit(text[..|text| - 1]);
    }
  }

  lemma {:induction false} ToHexLength(n: nat)
    ensures n < 0x10000 <==> |ToHex(n)| <= HEADER
    ensures n < 0x1000 <==> |ToHex(n)| <= 3
    ensures n < 0x100 <==> |ToHex(n)| <= 2
    ensures n < 0x10 <==> |ToHex(n)| <= 1
  {
    if n >= 16 {
      ToHexLength(n / 16);
    }
  }

  lemma {:induction false} LeadingZero(text: Bytes)
    requires IsHex(text)
    ensures IsHex([48] + text) && HexNumber([48] + text) == HexNumber(text)
  {
    var padded := [48] + text;
    if text != [] {
      var init := text[..|text| - 1];
      assert text == init + [text[|text| - 1]];
      assert padded[..|padded| - 1] == [48] + init;
      LeadingZero(init);
    } else {
      assert padded[..0] == [];
    }
  }

  lemma {:induction false} PadStartReadsBack(text: Bytes, width: nat)
    requires IsHex(text) && |text| <= width
    ensures var padded := PadStart(text, width);
      |padded| == width && IsHex(padded) && HexNumber(padded) == HexNumber(text)
    decreases width - |text|
  {
    if |text| < width {
      LeadingZero(text);
      PadStartReadsBack([48] + text, width);
    }
  }

  lemma {:induction false} HexNumberBound(text: Bytes)
    requires IsHex(text) && |text| <= HEADER
    ensures |text| == 1 ==> HexNumber(text) < 0x10
    ensures |text| == 2 ==> HexNumber(text) < 0x100
    ensures |text| == 3 ==> HexNumber(text) < 0x1000
    ensures |text| == 4 ==> HexNumber(text) < 0x10000
  {
    if text != [] {
      HexNumberBound(text[..|text| - 1]);
    }
  }

  // The character of one hex digit.
  function Hex(d: nat): nat {
    if d < 10 then 48 + d else 97 + (d - 10)
  }

  /** A fitting line starts with its length, header included, as four hex digits in lower case. */
  lemma HeaderIs(payload: Bytes)
    requires |payload| + HEADER < 0x10000
    ensures var n := |payload| + 4;
      PktLine(payload) == [Hex(n / 4096), Hex(n / 256 % 16), Hex(n / 16 % 16), Hex(n % 16)] + payload
  {
    var n := |payload| + HEADER;
    DigitsOf(n);
    ToHexLength(n);
    assert n / 16 / 16 == n / 256 && n / 256 / 16 == n / 4096;
    assert ToHex(0) == [48];
    PadFour(ToHex(n));
  }

  lemma PadFour(text: Bytes)
    requires 1 <= |text| <= 4
    ensures PadStart(text, 4) == (if |text| == 4 then [] else if |text| == 3 then [48]
                                  else if |text| == 2 then [48, 48] else [48, 48, 48]) + text
    decreases 4 - |text|
  {
    if |text| < 4 {
      PadFour([48] + text);
    }
  }

  lemma DigitsOf(n: nat)
    requires n < 0x10000
    ensures ToHex(n) == if n < 16 then [Hex(n)]
                        else if n < 256 then [Hex(n / 16), Hex(n % 16)]
                        else if n < 4096 then [Hex(n / 256), Hex(n / 16 % 16), Hex(n % 16)]
                        else [Hex(n / 4096), Hex(n / 256 % 16), Hex(n / 16 % 16), Hex(n % 16)]
  {
    if n >= 16 {
      DigitsOf(n / 16);
    }
  }

  // A packet of a stream: a line, or the flush packet `0000`.
  datatype Packet = Line(payload: Bytes) | Flush

  const FLUSH: Bytes := [48, 48, 48, 48]

  function EncodeOne(packet: Packet): Bytes {
    if packet.Line? then PktLine(packet.payload) else FLUSH
  }

  function Encode(packets: seq<Packet>): Bytes {
    if packets == [] then []
    else EncodeOne(packets[0]) + Encode(packets[1..])
  }

  function Payloads(packets: seq<Packet>): seq<Bytes> {
    if packets == [] then []
    else (if packets[0].Line? then [packets[0].payload] else []) + Payloads(packets[1..])
  }

  // The longest payload whose length still fits four hex digits.
  ghost predicate Fits(payload: Bytes) {
    |payload| + HEADER <= 0xFFFF
  }

  lemma HeaderReadsBack(parse: Bytes -> Option<int>, payload: Bytes)
    requires ReadsHex(parse) && Fits(payload)
    ensures |PktLine(payload)| == HEADER + |payload| && parse(PktLine(payload)[..HEADER]) == Some(|payload| + HEADER)
    ensures PktLine(payload)[HEADER..] == payload
  {
    var n := |payload| + HEADER;
    ToHexReadsBack(n);
    ToHexLength(n);
    PadStartReadsBack(ToHex(n), HEADER);
    assert PktLine(payload)[..HEADER] == PadStart(ToHex(n), HEADER);
  }

  lemma FlushReadsBack(parse: Bytes -> Option<int>)
    requires ReadsHex(parse)
    ensures parse(FLUSH) == Some(0)
  {
    assert FLUSH[..3] == [48, 48, 48] && FLUSH[..3][..2] == [48, 48] && FLUSH[..3][..2][..1] == [48];
    LeadingZero([48, 48, 48]);
    LeadingZero([48, 48]);
    LeadingZero([48]);
    assert [48] + [48, 48, 48] == FLUSH && [48] + [48, 48] == [48, 48, 48] && [48] + [48] == [48, 48];
    assert HexNumber([48]) == 0 by {
      LeadingZero([]);
      assert [48] + [] == [48];
    }
  }

  // One packet at an offset of a body, and what follows it.
  lemma FirstReadsBack(parse: Bytes -> Option<int>, packet: Packet, rest: Bytes, body: Bytes, r: Reader)
    requires ReadsHex(parse) && (packet.Line? ==> Fits(packet.payload))
    requires r.Reading? && 0 <= r.offset <= |body| && body[r.offset..] == EncodeOne(packet) + rest
    ensures var next := r.offset + |EncodeOne(packet)|;
      && next <= |body| && body[next..] == rest
      && Turn(parse, body, r) == Reading(next, r.lines + if packet.Line? then [packet.payload] else [])
  {
    hide ReadsHex, PktLine;
    var first := EncodeOne(packet);
    if packet.Line? {
      HeaderReadsBack(parse, packet.payload);
      SlicesOf(body, r.offset, first, rest);
    } else {
      FlushReadsBack(parse);
      SlicesOf(body, r.offset, first, rest);
      assert FLUSH[..HEADER] == FLUSH && r.lines + [] == r.lines;
    }
  }

  // The parts of a packet where it stands.
  lemma SlicesOf(body: Bytes, offset: nat, first: Bytes, rest: Bytes)
    requires offset <= |body| && body[offset..] == first + rest && |first| >= HEADER
    ensures var next := offset + |first|;
      && next <= |body| && body[next..] == rest && HeaderAt(body, offset) == first[..HEADER]
      && Subarray(body, offset + HEADER, next) == first[HEADER..]
  {
    var next := offset + |first|;
    assert body[next..] == body[offset..][|first|..] == rest;
    assert body[offset..offset + HEADER] == body[offset..][..HEADER] == first[..HEADER];
    assert body[offset + HEADER..next] == body[offset..][HEADER..|first|] == first[HEADER..];
  }

  lemma {:induction false} StreamReadsBack(parse: Bytes -> Option<int>, packets: seq<Packet>, body: Bytes, r: Reader)
    requires ReadsHex(parse) && forall p | p in packets && p.Line? :: Fits(p.payload)
    requires r.Reading? && 0 <= r.offset <= |body| && body[r.offset..] == Encode(packets)
    ensures After(parse, body, r, |packets| + 1) == Ended(r.lines + Payloads(packets))
    decreases |packets|
  {
    hide ReadsHex, EncodeOne;
    if packets == [] {
      assert r.offset == |body| && r.lines + [] == r.lines;
      assert After(parse, body, r, 1) == After(parse, body, Turn(parse, body, r), 0);
    } else {
      hide Turn;
      assert packets[0] in packets;
      FirstReadsBack(parse, packets[0], Encode(packets[1..]), body, r);
      var line := if packets[0].Line? then [packets[0].payload] else [];
      StreamReadsBack(parse, packets[1..], body, Turn(parse, body, r));
      assert (r.lines + line) + Payloads(packets[1..]) == r.lines + (line + Payloads(packets[1..]));
    }
  }

  /** Reading any stream of fitting lines and flush packets returns exactly the lines. */
  lemma ReadInvertsEncode(parse: Bytes -> Option<int>, packets: seq<Packet>)
    requires ReadsHex(parse) && forall p | p in packets && p.Line? :: Fits(p.payload)
    ensures Reads(parse, Encode(packets), Ended(Payloads(packets)))
  {
    assert Encode(packets)[0..] == Encode(packets) && [] + Payloads(packets) == Payloads(packets);
    StreamReadsBack(parse, packets, Encode(packets), Begin());
  }

  lemma {:induction false} LinesOnlyGrow(parse: Bytes -> Option<int>, body: Bytes, r: Reader, n: nat)
    requires !r.Malformed?
    ensures var end := After(parse, body, r, n); end.Malformed? || r.lines <= end.lines
    decreases n
  {
    if n > 0 {
      var next := Turn(parse, body, r);
      if next.Malformed? {
        OverStaysOver(parse, body, next, n - 1);
      } else {
        LinesOnlyGrow(parse, body, next, n - 1);
      }
    }
  }

  // The first line read from a packet whose length needs a fifth digit is cut short.
  lemma LongLineIsCut(parse: Bytes -> Option<int>, payload: Bytes)
    requires ReadsHex(parse) && !Fits(payload)
    ensures var next := Turn(parse, PktLine(payload), Begin());
      next.Reading? && |next.lines| == 1 && next.lines[0] != payload
  {
    var body, n := PktLine(payload), |payload| + HEADER;
    ToHexReadsBack(n);
    ToHexLength(n);
    var header := HeaderAt(body, 0);
    assert forall i | 0 <= i < HEADER :: header[i] == ToHex(n)[i];
    HexNumberBound(header);
    ToHexLeads(n);
    LeadingDigit(header);
    var first := Subarray(body, HEADER, HexNumber(header));
    assert first == [] || |first| + HEADER <= HexNumber(header);
  }

  /** The bound is exact: a line whose length needs a fifth digit never reads back. */
  lemma LineReadsBackIffItFits(parse: Bytes -> Option<int>, payload: Bytes)
    requires ReadsHex(parse)
    ensures Reads(parse, PktLine(payload), Ended([payload])) <==> Fits(payload)
  {
    if Fits(payload) {
      ReadInvertsEncode(parse, [Line(payload)]);
      assert Encode([Line(payload)]) == PktLine(payload) + [] == PktLine(payload);
      assert Payloads([Line(payload)]) == [payload];
    } else if Reads(parse, PktLine(payload), Ended([payload])) {
      var body := PktLine(payload);
      LongLineIsCut(parse, payload);
      hide Turn, PktLine, Fits;
      var n: nat :| After(parse, body, Begin(), n) == Ended([payload]);
      LinesOnlyGrow(parse, body, Turn(parse, body, Begin()), n - 1);
    }
  }

  // No header the loop meets is read as a negative number.
  ghost predicate MeetsUnsigned(parse: Bytes -> Option<int>, body: Bytes) {
    forall n: nat :: UnsignedAt(parse, body, After(parse, body, Begin(), n))
  }

  predicate UnsignedAt(parse: Bytes -> Option<int>, body: Bytes, r: Reader) {
    r.Reading? && r.offset + HEADER <= |body| && parse(HeaderAt(body, r.offset)).Some? ==>
      parse(HeaderAt(body, r.offset)).value >= 0
  }

  lemma {:induction false} UnsignedAdvances(parse: Bytes -> Option<int>, body: Bytes, n: nat)
    requires MeetsUnsigned(parse, body)
    ensures var r := After(parse, body, Begin(), n); r.Reading? ==> r.offset >= n
  {
    if n > 0 {
      UnsignedAdvances(parse, body, n - 1);
      OneMore(parse, body, Begin(), n - 1);
      assert UnsignedAt(parse, body, After(parse, body, Begin(), n - 1));
    }
  }

  /** The reader ends when it meets no header with a sign; what the payloads hold does not matter. */
  lemma UnsignedHeadersEnd(parse: Bytes -> Option<int>, body: Bytes)
    requires MeetsUnsigned(parse, body)
    ensures !After(parse, body, Begin(), |body| + 1).Reading? && Ends(parse, body)
  {
    UnsignedAdvances(parse, body, |body|);
    OneMore(parse, body, Begin(), |body|);
  }

  // Every header the loop meets is four hex digits.
  ghost predicate MeetsHex(parse: Bytes -> Option<int>, body: Bytes) {
    forall n: nat :: HexAt(body, After(parse, body, Begin(), n))
  }

  predicate HexAt(body: Bytes, r: Reader) {
    r.Reading? && r.offset + HEADER <= |body| ==>
      |HeaderAt(body, r.offset)| == HEADER && IsHex(HeaderAt(body, r.offset))
  }

  lemma {:induction false} HexNeverThrows(parse: Bytes -> Option<int>, body: Bytes, n: nat)
    requires ReadsHex(parse) && MeetsHex(parse, body)
    ensures !After(parse, body, Begin(), n).Malformed?
  {
    if n > 0 {
      HexNeverThrows(parse, body, n - 1);
      OneMore(parse, body, Begin(), n - 1);
      assert HexAt(body, After(parse, body, Begin(), n - 1));
    }
  }

  /** On a body whose headers are hex digits the reader ends, and does not throw. */
  lemma HexHeadersEnd(parse: Bytes -> Option<int>, body: Bytes)
    requires ReadsHex(parse) && MeetsHex(parse, body)
    ensures exists lines :: Reads(parse, body, Ended(lines))
  {
    forall n: nat ensures UnsignedAt(parse, body, After(parse, body, Begin(), n)) {
      assert HexAt(body, After(parse, body, Begin(), n));
    }
    UnsignedHeadersEnd(parse, body);
    HexNeverThrows(parse, body, |body| + 1);
    var end := After(parse, body, Begin(), |body| + 1);
    assert Reads(parse, body, Ended(end.lines));
  }

  // The loop stands at one offset twice.
  ghost predicate Recurs(parse: Bytes -> Option<int>, body: Bytes, i: nat, j: nat) {
    var a, b := After(parse, body, Begin(), i), After(parse, body, Begin(), j);
    i < j && a.Reading? && b.Reading? && a.offset == b.offset
  }

  // Where the loop goes depends on the offset alone.
  lemma {:induction false} OffsetDecides(parse: Bytes -> Option<int>, body: Bytes, a: Reader, b: Reader, n: nat)
    requires a.Reading? && b.Reading? && a.offset == b.offset
    ensures var c, d := After(parse, body, a, n), After(parse, body, b, n);
      c.Reading? == d.Reading? && (c.Reading? ==> c.offset == d.offset)
    decreases n
  {
    if n > 0 {
      var c, d := Turn(parse, body, a), Turn(parse, body, b);
      if c.Reading? {
        OffsetDecides(parse, body, c, d, n - 1);
      } else {
        OverStaysOver(parse, body, c, n - 1);
        OverStaysOver(parse, body, d, n - 1);
      }
    }
  }

  /** Once an offset recurs, the reader never ends. */
  lemma {:induction false} RecurringOffsetNeverEnds(parse: Bytes -> Option<int>, body: Bytes, i: nat, j: nat, n: nat)
    requires Recurs(parse, body, i, j)
    ensures After(parse, body, Begin(), n).Reading?
  {
    if n < j {
      AfterAdds(parse, body, Begin(), n, j - n);
      if !After(parse, body, Begin(), n).Reading? {
        OverStaysOver(parse, body, After(parse, body, Begin(), n), j - n);
      }
    } else {
      RecurringOffsetNeverEnds(parse, body, i, j, n - (j - i));
      AfterAdds(parse, body, Begin(), i, n - j);
      AfterAdds(parse, body, Begin(), j, n - j);
      OffsetDecides(parse, body, After(parse, body, Begin(), i), After(parse, body, Begin(), j), n - j);
    }
  }

  lemma {:induction false} DistinctSize(s: seq<int>)
    requires forall i, j | 0 <= i < j < |s| :: s[i] != s[j]
    ensures |set x | x in s| == |s|
  {
    if s != [] {
      var init, last := s[..|s| - 1], s[|s| - 1];
      DistinctSize(init);
      assert s == init + [last];
      assert (set x | x in s) == (set x | x in init) + {last};
    }
  }

  function Range(lo: int, k: nat): (range: set<int>)
    ensures |range| == k && forall x :: x in range <==> lo <= x < lo + k
  {
    if k == 0 then {} else Range(lo, k - 1) + {lo + k - 1}
  }

  lemma FitsIn(a: set<int>, b: set<int>)
    requires a <= b
    ensures |a| <= |b|
  {
    assert b == a + (b - a);
  }

  lemma Pigeonhole(s: seq<int>, lo: int, k: nat) returns (i: nat, j: nat)
    requires |s| > k && forall x | x in s :: lo <= x < lo + k
    ensures i < j < |s| && s[i] == s[j]
  {
    if forall i, j | 0 <= i < j < |s| :: s[i] != s[j] {
      DistinctSize(s);
      FitsIn((set x | x in s), Range(lo, k));
      assert false;
    }
    i, j :| 0 <= i < j < |s| && s[i] == s[j];
  }

  // An offset from which the loop goes on lies within the body, counted from either end.
  lemma OffsetIsBounded(parse: Bytes -> Option<int>, body: Bytes, r: Reader)
    requires parse([]).None? && r.Reading? && Turn(parse, body, r).Reading?
    ensures -|body| - 3 <= r.offset <= |body| - HEADER
  {
  }

  lemma LongRunRecurs(parse: Bytes -> Option<int>, body: Bytes) returns (i: nat, j: nat)
    requires parse([]).None? && After(parse, body, Begin(), 2 * |body| + 1).Reading?
    ensures Recurs(parse, body, i, j)
  {
    var k := 2 * |body|;
    var s := seq(k + 1, n requires 0 <= n =>
                          var r := After(parse, body, Begin(), n);
                          if r.Reading? then r.offset else 0);
    forall n | 0 <= n < k + 1
      ensures After(parse, body, Begin(), n).Reading? && -|body| - 3 <= s[n] < -|body| - 3 + k
    {
      var r := After(parse, body, Begin(), n);
      OneMore(parse, body, Begin(), n);
      AfterAdds(parse, body, Begin(), n, k + 1 - n);
      AfterAdds(parse, body, Begin(), n + 1, k - n);
      if !r.Reading? {
        OverStaysOver(parse, body, r, k + 1 - n);
      } else if !Turn(parse, body, r).Reading? {
        OverStaysOver(parse, body, Turn(parse, body, r), k - n);
      }
      OffsetIsBounded(parse, body, r);
    }
    i, j := Pigeonhole(s, -|body| - 3, k);
  }

  /** When the reader ends, exactly: no offset recurs; or, to be seen by trying, twice the body's length
      of turns are enough. (parseInt of an empty text is NaN.) */
  lemma EndsIffNoOffsetRecurs(parse: Bytes -> Option<int>, body: Bytes)
    requires parse([]).None?
    ensures Ends(parse, body) <==> forall i, j :: !Recurs(parse, body, i, j)
    ensures Ends(parse, body) <==> !After(parse, body, Begin(), 2 * |body| + 1).Reading?
  {
    if After(parse, body, Begin(), 2 * |body| + 1).Reading? {
      var i, j := LongRunRecurs(parse, body);
      forall n: nat ensures After(parse, body, Begin(), n).Reading? {
        RecurringOffsetNeverEnds(parse, body, i, j, n);
      }
    } else {
      forall i: nat, j: nat ensures !Recurs(parse, body, i, j) {
        if Recurs(parse, body, i, j) {
          RecurringOffsetNeverEnds(parse, body, i, j, 2 * |body| + 1);
        }
      }
    }
  }

  // Three empty lines, then a header with a sign: the bytes of `000400040004-00c`.
  const SIGNED: Bytes := [45, 48, 48, 99]
  const EMPTY_LINE: Bytes := [48, 48, 48, 52]
  const SIGNED_BODY: Bytes := [48, 48, 48, 52, 48, 48, 48, 52, 48, 48, 48, 52, 45, 48, 48, 99]

  lemma EmptyLineReads(parse: Bytes -> Option<int>)
    requires ReadsHex(parse)
    ensures parse(EMPTY_LINE) == Some(4)
  {
    HeaderReadsBack(parse, []);
    assert ToHex(4) == [52];
    assert [48] + [52] == [48, 52] && [48] + [48, 52] == [48, 48, 52] && [48] + [48, 48, 52] == EMPTY_LINE;
    assert PadStart([52], 4) == PadStart([48, 52], 4) == PadStart([48, 48, 52], 4) == EMPTY_LINE;
    assert PktLine([])[..HEADER] == EMPTY_LINE;
  }

  lemma SignedBodyHeaders()
    ensures |SIGNED_BODY| == 16 && HeaderAt(SIGNED_BODY, 0) == HeaderAt(SIGNED_BODY, 4) == EMPTY_LINE
    ensures HeaderAt(SIGNED_BODY, 8) == EMPTY_LINE && HeaderAt(SIGNED_BODY, 12) == SIGNED
  {
  }

  lemma SignedTurn(parse: Bytes -> Option<int>, r: Reader, k: nat)
    requires ReadsHex(parse) && parse(SIGNED) == Some(-12) && k < 4 && r.Reading? && r.offset == 4 * k
    ensures var next := Turn(parse, SIGNED_BODY, r); next.Reading? && next.offset == if k == 3 then 0 else 4 * k + 4
  {
    EmptyLineReads(parse);
    SignedBodyHeaders();
    hide ReadsHex, SIGNED, SIGNED_BODY, EMPTY_LINE, HeaderAt, Subarray;
    assert k == 0 || k == 1 || k == 2 || k == 3;
  }

  /** parseInt accepts a sign, so such a body exists: this one goes round its four headers forever. */
  lemma SignedBodyNeverEnds(parse: Bytes -> Option<int>, n: nat)
    requires ReadsHex(parse) && parse(SIGNED) == Some(-12)
    ensures After(parse, SIGNED_BODY, Begin(), n).Reading?
  {
    var body := SIGNED_BODY;
    hide ReadsHex, SIGNED, SIGNED_BODY, Turn, After;
    var a := Turn(parse, body, Begin());
    var b := Turn(parse, body, a);
    var c := Turn(parse, body, b);
    SignedTurn(parse, Begin(), 0);
    SignedTurn(parse, a, 1);
    SignedTurn(parse, b, 2);
    SignedTurn(parse, c, 3);
    NoTurns(parse, body, Begin());
    OneMore(parse, body, Begin(), 0);
    OneMore(parse, body, Begin(), 1);
    OneMore(parse, body, Begin(), 2);
    OneMore(parse, body, Begin(), 3);
    assert Recurs(parse, body, 0, 4);
    RecurringOffsetNeverEnds(parse, body, 0, 4, n);
  }

  lemma NoTurns(parse: Bytes -> Option<int>, body: Bytes, r: Reader)
    ensures After(parse, body, r, 0) == r
  {
  }
}
