/**
 * The Punycode decoder that makes international host labels readable, as a loop and as the recursive
 * function it computes. Text is a sequence of UTF-16 code units; numbers are unbounded.
 */
module Punycode {
  import opened Options

  type Units = seq<nat>

  const BASE: nat := 36
  const TMIN: nat := 1
  const TMAX: nat := 26
  const SKEW: nat := 38
  const DAMP: nat := 700
  const INITIAL_BIAS: nat := 72
  const INITIAL_N: nat := 128

  const HYPHEN: nat := 45
  const PREFIX: Units := [120, 110, 45, 45]

  function DigitFor(code: nat): (digit: Option<nat>)
    ensures digit.Some? ==> digit.value < BASE
  {
    if 48 <= code <= 57 then Some(code - 22)
    else if 65 <= code <= 90 then Some(code - 65)
    else if 97 <= code <= 122 then Some(code - 97)
    else None
  }

  function Threshold(k: nat, bias: nat): (t: nat)
    ensures TMIN <= t <= TMAX
  {
    if k <= bias then TMIN else if k >= bias + TMAX then TMAX else k - bias
  }

  function Scale(d: nat, k: nat): (nat, nat) {
    if d > (BASE - TMIN) * TMAX / 2 then Scale(d / (BASE - TMIN), k + BASE) else (d, k)
  }

  function Damped(delta: nat, points: nat, first: bool): nat
    requires points > 0
  {
    var d := if first then delta / DAMP else delta / 2;
    d + d / points
  }

  function Skewed(d: nat): nat {
    (BASE - TMIN + 1) * d / (d + SKEW)
  }

  function Adapt(delta: nat, points: nat, first: bool): nat
    requires points > 0
  {
    var (d, k) := Scale(Damped(delta, points, first), 0);
    k + Skewed(d)
  }

  method ComputeAdapt(delta: nat, points: nat, first: bool) returns (bias: nat)
    requires points > 0
    ensures bias == Adapt(delta, points, first)
  {
    hide Skewed, Damped;
    var d: nat := Damped(delta, points, first);
    var k: nat := 0;
    while d > (BASE - TMIN) * TMAX / 2
      invariant Scale(d, k) == Scale(Damped(delta, points, first), 0)
    {
      d := d / (BASE - TMIN);
      k := k + BASE;
    }
    bias := k + Skewed(d);
  }

  // One code point as UTF-16; None is the RangeError above the last code point.
  function FromCodePoint(n: nat): Option<Units> {
    if n < 0x10000 then Some([n])
    else if n <= 0x10FFFF then Some([0xD800 + (n - 0x10000) / 0x400, 0xDC00 + (n - 0x10000) % 0x400])
    else None
  }

  function Times(a: nat, b: nat): nat {
    a * b
  }

  function Place(digit: nat, radix: nat, higher: nat): nat {
    digit + Times(radix, higher)
  }

  // A generalized variable-length integer at the front of the tail: its value and where it ends.
  // None: a character that is not a digit, or the tail ends first.
  function ReadInteger(tail: Units, pos: nat, k: nat, bias: nat): (r: Option<(nat, nat)>)
    requires pos <= |tail|
    ensures r.Some? ==> pos < r.value.1 <= |tail|
    decreases |tail| - pos
  {
    if pos == |tail| || DigitFor(tail[pos]).None? then None
    else
      var digit := DigitFor(tail[pos]).value;
      var threshold := Threshold(k, bias);
      if digit < threshold then Some((digit, pos + 1))
      else match ReadInteger(tail, pos + 1, k + BASE, bias)
        case None => None
        case Some((higher, next)) => Some((Place(digit, BASE - threshold, higher), next))
  }

  // The decoder's state: the text so far, the last code point, the insertion index and the bias.
  datatype Decoder = Decoder(output: Units, n: nat, i: nat, bias: nat)

  // The insertion at a running index: how often it wraps moves the code point, the rest is the place.
  function Insert(s: Decoder, total: nat): Option<Decoder>
    requires s.i <= total
  {
    var points := |s.output| + 1;
    var n := s.n + total / points;
    var at := total % points;
    match FromCodePoint(n)
    case None => None
    case Some(units) =>
      Some(Decoder(s.output[..at] + units + s.output[at..], n, at + 1, Adapt(total - s.i, points, s.i == 0)))
  }

  // The text after every insertion the tail describes.
  function DecodeTail(tail: Units, pos: nat, s: Decoder): Option<Units>
    requires pos <= |tail|
    decreases |tail| - pos
  {
    if pos == |tail| then Some(s.output)
    else
      match ReadInteger(tail, pos, BASE, s.bias)
      case None => None
      case Some((delta, next)) =>
        match Insert(s, s.i + delta)
        case None => None
        case Some(s1) => DecodeTail(tail, next, s1)
  }

  function LastIndexOf(s: Units, unit: nat): (i: int)
    ensures -1 <= i < |s| && (i >= 0 ==> s[i] == unit)
    ensures forall j | i < j < |s| :: s[j] != unit
  {
    if s == [] then -1
    else if s[|s| - 1] == unit then |s| - 1
    else LastIndexOf(s[..|s| - 1], unit)
  }

  function DecodeLabel(host: Units): Units {
    if !(PREFIX <= host) then host
    else
      var payload := host[4..];
      var hyphen := LastIndexOf(payload, HYPHEN);
      var output := if hyphen > 0 then payload[..hyphen] else [];
      var tail := if hyphen > 0 then payload[hyphen + 1..] else payload;
      match DecodeTail(tail, 0, Decoder(output, INITIAL_N, 0, INITIAL_BIAS))
      case Some(decoded) => decoded
      case None => host
  }

  lemma Shifted(w: nat, digit: nat, radix: nat, higher: nat)
    ensures Times(w, Place(digit, radix, higher)) == Times(digit, w) + Times(Times(w, radix), higher)
  {
  }

  lemma TimesFacts(w: nat, digit: nat)
    ensures Times(1, w) == w && Times(w, digit) == Times(digit, w)
  {
  }

  // The decoder's inner loop: adds the next integer to the running index.
  method ReadDelta(tail: Units, start: nat, total: nat, bias: nat) returns (r: Option<(nat, nat)>)
    requires start <= |tail|
    ensures var read := ReadInteger(tail, start, BASE, bias);
      r == if read.Some? then Some((total + read.value.0, read.value.1)) else None
  {
    hide Place, Threshold, Times;
    var pos: nat, i: nat, w: nat, k: nat := start, total, 1, BASE;
    ghost var read := ReadInteger(tail, start, BASE, bias);
    if read.Some? {
      TimesFacts(read.value.0, 0);
    }
    while true
      invariant start <= pos <= |tail|
      invariant var rest := ReadInteger(tail, pos, k, bias);
        if read.None? then rest.None?
        else rest.Some? && rest.value.1 == read.value.1 && total + read.value.0 == i + Times(w, rest.value.0)
      decreases |tail| - pos
    {
      if pos == |tail| || DigitFor(tail[pos]).None? {
        return None;
      }
      var digit := DigitFor(tail[pos]).value;
      var threshold := Threshold(k, bias);
      var radix := BASE - threshold;
      ghost var higher := ReadInteger(tail, pos + 1, k + BASE, bias);
      TimesFacts(w, digit);
      if higher.Some? {
        Shifted(w, digit, radix, higher.value.0);
      }
      pos := pos + 1;
      i := i + Times(digit, w);
      if digit < threshold {
        return Some((i, pos));
      }
      w := Times(w, radix);
      k := k + BASE;
    }
  }

  // The rest of the decoder's loop body: adapt the bias, split the index, insert the code point.
  method InsertNext(output: Units, n: nat, oldi: nat, total: nat, bias: nat) returns (r: Option<Decoder>)
    requires oldi <= total
    ensures r == Insert(Decoder(output, n, oldi, bias), total)
  {
    hide Adapt;
    var outputLength := |output|;
    var newBias := ComputeAdapt(total - oldi, outputLength + 1, oldi == 0);
    var point := n + total / (outputLength + 1);
    var i := total % (outputLength + 1);
    var units := FromCodePoint(point);
    if units.None? {
      return None;
    }
    return Some(Decoder(output[..i] + units.value + output[i..], point, i + 1, newBias));
  }

  method DecodePunycodeLabel(host: Units) returns (decoded: Units)
    ensures decoded == DecodeLabel(host)
  {
    hide Insert, ReadInteger;
    if !(PREFIX <= host) {
      return host;
    }
    var payload := host[4..];
    var hyphen := LastIndexOf(payload, HYPHEN);
    var output := if hyphen > 0 then payload[..hyphen] else [];
    var tail := if hyphen > 0 then payload[hyphen + 1..] else payload;
    ghost var whole := DecodeTail(tail, 0, Decoder(output, INITIAL_N, 0, INITIAL_BIAS));
    var n: nat, i: nat, bias: nat, pos: nat := INITIAL_N, 0, INITIAL_BIAS, 0;
    while pos < |tail|
      invariant pos <= |tail|
      invariant whole == DecodeTail(tail, pos, Decoder(output, n, i, bias))
      decreases |tail| - pos
    {
      var read := ReadDelta(tail, pos, i, bias);
      if read.None? {
        return host;
      }
      var inserted := InsertNext(output, n, i, read.value.0, bias);
      if inserted.None? {
        return host;
      }
      output, n, i, bias := inserted.value.output, inserted.value.n, inserted.value.i, inserted.value.bias;
      pos := read.value.1;
    }
    return output;
  }
}
