/** The decoder inverts the encoder of section 6.3 of RFC 3492. */
module PunycodeRoundTrip {
  import opened Options
  import opened Punycode
  import opened Rfc3492

  lemma ThresholdsAgree(k: nat, bias: nat)
    ensures Threshold(k, bias) == ThresholdAt(k, bias)
  {
  }

  lemma {:induction false} ScalesAgree(d: nat, k: nat)
    ensures Scaled(d, k) == var (rest, steps) := Scale(d, k); steps + Skewed(rest)
    decreases d
  {
    if d > 455 {
      ScalesAgree(d / 35, k + 36);
    }
  }

  // The bias of section 6.1.
  lemma AdaptationsAgree(delta: nat, points: nat, first: bool)
    requires points > 0
    ensures Adapt(delta, points, first) == AdaptBias(delta, points, first)
  {
    ScalesAgree(Damped(delta, points, first), 0);
  }

  lemma DigitsAgree(d: nat)
    requires d < 36
    ensures DigitFor(EncodeDigit(d)) == Some(d)
  {
  }

  lemma Recombines(q: nat, t: nat)
    requires TMIN <= t <= TMAX && t <= q
    ensures Place(LowDigit(q, t), BASE - t, Higher(q, t)) == q
  {
  }

  lemma {:induction false} IntegerReadsBack(tail: Units, pos: nat, q: nat, k: nat, bias: nat)
    requires pos <= |tail| && EncodeInteger(q, k, bias) <= tail[pos..]
    ensures ReadInteger(tail, pos, k, bias) == Some((q, pos + |EncodeInteger(q, k, bias)|))
    decreases q
  {
    var t := ThresholdAt(k, bias);
    var digits := EncodeInteger(q, k, bias);
    assert tail[pos] == tail[pos..][0] == digits[0];
    ThresholdsAgree(k, bias);
    DigitsAgree(if q < t then q else LowDigit(q, t));
    if q >= t {
      var higher := Higher(q, t);
      assert digits[1..] == EncodeInteger(higher, k + BASE, bias);
      assert digits[1..] <= tail[pos + 1..] by {
        assert tail[pos + 1..] == tail[pos..][1..];
      }
      IntegerReadsBack(tail, pos + 1, higher, k + BASE, bias);
      Recombines(q, t);
    }
  }

  lemma {:induction false} BelowConcat(a: Units, b: Units, bound: nat)
    ensures Below(a + b, bound) == Below(a, bound) + Below(b, bound)
  {
    if b == [] {
      assert a + b == a;
    } else {
      assert (a + b)[..|a + b| - 1] == a + b[..|b| - 1];
      BelowConcat(a, b[..|b| - 1], bound);
    }
  }

  lemma BelowFront(u: Units, j: nat, bound: nat)
    requires j < |u|
    ensures Below(u[j..], bound) == (if u[j] < bound then [u[j]] else []) + Below(u[j + 1..], bound)
  {
    assert u[j..] == [u[j]] + u[j + 1..];
    BelowConcat([u[j]], u[j + 1..], bound);
    assert [u[j]][..0] == [];
  }

  lemma BelowBack(u: Units, j: nat, bound: nat)
    requires j < |u|
    ensures Below(u[..j + 1], bound) == Below(u[..j], bound) + (if u[j] < bound then [u[j]] else [])
  {
    assert u[..j + 1][..j] == u[..j];
  }

  lemma {:induction false} BelowSame(u: Units, low: nat, high: nat)
    requires low <= high && forall c | c in u :: c < low || c >= high
    ensures Below(u, low) == Below(u, high)
  {
    if u != [] {
      var init := u[..|u| - 1];
      assert u[|u| - 1] in u;
      forall c | c in init ensures c < low || c >= high {
        assert c in u;
      }
      BelowSame(init, low, high);
    }
  }

  lemma {:induction false} BelowAll(u: Units, bound: nat)
    requires forall c | c in u :: c < bound
    ensures Below(u, bound) == u
  {
    if u != [] {
      var init := u[..|u| - 1];
      assert u[|u| - 1] in u;
      forall c | c in init ensures c < bound {
        assert c in u;
      }
      BelowAll(init, bound);
    }
  }

  // Where the next code point of the row would go.
  function Place0(u: Units, n: nat, j: nat): nat
    requires j <= |u|
  {
    |Below(u[..j], n + 1)|
  }

  // The decoder has caught up with the scan: the distance left to the scan's place is delta.
  ghost predicate InStep(u: Units, n: nat, j: nat, delta: nat, s: Decoder)
    requires j <= |u|
  {
    var h := |Inserted(u, n, j)|;
    && s.output == Inserted(u, n, j)
    && s.n <= n
    && s.i + delta == Skip(n - s.n, h) + Place0(u, n, j)
    && |Below(u, INITIAL_N)| <= h
    && (s.i == 0 <==> h == |Below(u, INITIAL_N)|)
  }

  lemma PassKeepsStep(u: Units, n: nat, j: nat, delta: nat, s: Decoder)
    requires j < |u| && u[j] != n && InStep(u, n, j, delta, s)
    ensures InStep(u, n, j + 1, if u[j] < n then delta + 1 else delta, s)
  {
    BelowFront(u, j, n);
    BelowBack(u, j, n + 1);
    assert Inserted(u, n, j + 1) == Inserted(u, n, j);
  }

  lemma Multiple(p: nat, k: int)
    ensures k > 0 ==> p * k >= p
    ensures k < 0 ==> p * k + p <= 0
  {
  }

  lemma DivMod(a: nat, h: nat, r: nat)
    requires r <= h
    ensures (Skip(a, h) + r) / (h + 1) == a && (Skip(a, h) + r) % (h + 1) == r
  {
    var p, x := h + 1, Skip(a, h) + r;
    var q, rest := x / p, x % p;
    assert x == p * q + rest;
    var k: int := a - q;
    assert p * k == p * a - p * q == rest - r;
    Multiple(p, k);
  }

  lemma InsertSplits(u: Units, n: nat, j: nat)
    requires j < |u| && u[j] == n
    ensures var before, after := Below(u[..j], n + 1), Below(u[j..], n);
      && Inserted(u, n, j)[..|before|] == before && Inserted(u, n, j)[|before|..] == after
      && Inserted(u, n, j + 1) == before + [n] + after
      && Place0(u, n, j + 1) == |before| + 1
  {
    var before, after := Below(u[..j], n + 1), Below(u[j..], n);
    BelowFront(u, j, n);
    BelowBack(u, j, n + 1);
    assert (before + after)[..|before|] == before && (before + after)[|before|..] == after;
    assert before + [n] + after == (before + [n]) + after;
  }

  lemma InsertKeepsStep(u: Units, n: nat, j: nat, delta: nat, s: Decoder)
    requires j < |u| && u[j] == n && n < 0x10000 && InStep(u, n, j, delta, s)
    ensures var h := |Inserted(u, n, j)|;
      var next := Insert(s, s.i + delta);
      && next.Some?
      && next.value.bias == AdaptBias(delta, h + 1, h == |Below(u, INITIAL_N)|)
      && InStep(u, n, j + 1, 0, next.value)
  {
    hide Adapt, AdaptBias, Below, Skip;
    AdaptationsAgree(delta, |Inserted(u, n, j)| + 1, s.i == 0);
    InsertSplits(u, n, j);
    DivMod(n - s.n, |Inserted(u, n, j)|, Place0(u, n, j));
    SkipNone(|Inserted(u, n, j + 1)|);
  }

  lemma SkipNone(h: nat)
    ensures Skip(0, h) == 0
  {
  }

  lemma BelowNone(bound: nat)
    ensures Below([], bound) == []
  {
  }

  // From the end of a row to the start of the next one with a code point in it.
  lemma RowKeepsStep(u: Units, n: nat, delta: nat, m: nat, s: Decoder)
    requires InStep(u, n, |u|, delta, s) && n < m && forall c | c in u :: c <= n || c >= m
    ensures InStep(u, m, 0, delta + 1 + Skip(m - (n + 1), |Inserted(u, n, |u|)|), s)
  {
    hide Skip, Below;
    var h := |Inserted(u, n, |u|)|;
    BelowNone(n);
    BelowNone(m + 1);
    assert u[..|u|] == u && u[|u|..] == [] && u[..0] == [] && u[0..] == u;
    BelowSame(u, n + 1, m);
    assert Inserted(u, n, |u|) == Below(u, n + 1) == Inserted(u, m, 0);
    RowsAdd(s.n, n, m, h);
  }

  lemma RowsAdd(a: nat, n: nat, m: nat, h: nat)
    requires a <= n < m
    ensures Skip(n - a, h) + h + 1 + Skip(m - (n + 1), h) == Skip(m - a, h)
  {
  }

  // Reading one integer and making its insertion.
  lemma ReadAndInsert(tail: Units, pos: nat, s: Decoder, delta: nat)
    requires pos <= |tail| && EncodeInteger(delta, BASE, s.bias) <= tail[pos..]
    requires Insert(s, s.i + delta).Some?
    ensures var end := pos + |EncodeInteger(delta, BASE, s.bias)|;
      pos < end <= |tail| && DecodeTail(tail, pos, s) == DecodeTail(tail, end, Insert(s, s.i + delta).value)
  {
    hide Insert;
    IntegerReadsBack(tail, pos, delta, BASE, s.bias);
  }

  /** From any point of the encoder's scan, the decoder in step with it rebuilds the whole text. */
  lemma {:induction false} ScanDecodes(u: Units, n: nat, j: nat, delta: nat, tail: Units, pos: nat, s: Decoder)
    requires j <= |u| && n in u && pos <= |tail| && forall c | c in u :: c < 0x10000
    requires InStep(u, n, j, delta, s)
    requires tail[pos..] == EncodeScan(u, n, j, delta, s.bias)
    ensures DecodeTail(tail, pos, s) == Some(u)
    decreases 0x10000 - n, |u| - j
  {
    hide Insert, ReadInteger, AdaptBias, InStep, EncodeInteger, Skip;
    if j < |u| && u[j] != n {
      PassKeepsStep(u, n, j, delta, s);
      ScanDecodes(u, n, j + 1, if u[j] < n then delta + 1 else delta, tail, pos, s);
    } else if j < |u| {
      var digits := EncodeInteger(delta, BASE, s.bias);
      InsertKeepsStep(u, n, j, delta, s);
      ReadAndInsert(tail, pos, s, delta);
      var next := Insert(s, s.i + delta).value;
      assert tail[pos + |digits|..] == tail[pos..][|digits|..];
      ScanDecodes(u, n, j + 1, 0, tail, pos + |digits|, next);
    } else if exists c | c in u :: c > n {
      var m := MinFrom(u, n + 1);
      RowKeepsStep(u, n, delta, m, s);
      ScanDecodes(u, m, 0, delta + 1 + Skip(m - (n + 1), |Inserted(u, n, j)|), tail, pos, s);
    } else {
      ScanEnds(u, n, delta, s);
    }
  }

  lemma ScanEnds(u: Units, n: nat, delta: nat, s: Decoder)
    requires InStep(u, n, |u|, delta, s) && forall c | c in u :: c <= n
    ensures s.output == u
  {
    assert u[..|u|] == u && u[|u|..] == [];
    BelowAll(u, n + 1);
  }

  lemma {:induction false} LastIndexOfSplit(a: Units, unit: nat, b: Units)
    requires unit !in b
    ensures LastIndexOf(a + [unit] + b, unit) == |a|
  {
    var s := a + [unit] + b;
    if b == [] {
      assert s[|s| - 1] == unit;
    } else {
      assert s[|s| - 1] == b[|b| - 1] && s[..|s| - 1] == a + [unit] + b[..|b| - 1];
      LastIndexOfSplit(a, unit, b[..|b| - 1]);
    }
  }

  function Start(u: Units): Decoder {
    Decoder(Below(u, INITIAL_N), INITIAL_N, 0, INITIAL_BIAS)
  }

  lemma TailDecodes(u: Units)
    requires forall c | c in u :: c < 0x10000
    ensures DecodeTail(EncodeTail(u), 0, Start(u)) == Some(u)
  {
    assert INITIAL_BIAS == 72;
    if exists c | c in u :: c >= INITIAL_N {
      ExtendedTailDecodes(u, MinFrom(u, INITIAL_N));
    } else {
      BelowAll(u, INITIAL_N);
    }
  }

  lemma ExtendedTailDecodes(u: Units, m: nat)
    requires m >= INITIAL_N && m in u && forall c | c in u :: c < 0x10000 && (c < INITIAL_N || c >= m)
    ensures var tail := EncodeScan(u, m, 0, Skip(m - INITIAL_N, |Below(u, INITIAL_N)|), INITIAL_BIAS);
      DecodeTail(tail, 0, Start(u)) == Some(u)
  {
    hide DecodeTail, InStep, EncodeScan, Below, Skip;
    var start, delta := Start(u), Skip(m - INITIAL_N, |Below(u, INITIAL_N)|);
    var tail := EncodeScan(u, m, 0, delta, INITIAL_BIAS);
    StartInStep(u, m, start);
    assert tail[0..] == tail;
    ScanDecodes(u, m, 0, delta, tail, 0, start);
  }

  lemma StartInStep(u: Units, m: nat, start: Decoder)
    requires start == Start(u)
    requires m >= INITIAL_N && forall c | c in u :: c < INITIAL_N || c >= m
    ensures InStep(u, m, 0, Skip(m - INITIAL_N, |start.output|), start)
  {
    assert u[..0] == [] && u[0..] == u;
    BelowSame(u, INITIAL_N, m);
    assert Inserted(u, m, 0) == start.output;
  }

  /** Decoding inverts the encoder: every text of code points in the basic multilingual plane comes
      back from its label. (Outside the surrogates, its code points are its code units.) */
  lemma DecodeInvertsEncode(u: Units)
    requires forall c | c in u :: c < 0x10000
    ensures DecodeLabel(EncodeLabel(u)) == u
  {
    hide DecodeTail, EncodeTail;
    var basic := Below(u, INITIAL_N);
    var tail := EncodeTail(u);
    var payload := EncodeLabel(u)[4..];
    TailDecodes(u);
    if basic != [] {
      assert payload == basic + [HYPHEN] + tail;
      LastIndexOfSplit(basic, HYPHEN, tail);
      assert payload[..|basic|] == basic && payload[|basic| + 1..] == tail;
    } else {
      assert payload == tail;
    }
  }

  /** A code is a digit exactly if it is the encoder's for its value, or the capital of that letter. */
  lemma DigitIff(code: nat, d: nat)
    ensures DigitFor(code) == Some(d) <==>
            d < 36 && (code == EncodeDigit(d) || (d < 26 && code == EncodeDigit(d) - 32))
  {
  }

  lemma {:induction false} IntegerIsDigits(tail: Units, pos: nat, k: nat, bias: nat)
    requires pos <= |tail| && ReadInteger(tail, pos, k, bias).Some?
    ensures forall i | pos <= i < ReadInteger(tail, pos, k, bias).value.1 :: DigitFor(tail[i]).Some?
    decreases |tail| - pos
  {
    if DigitFor(tail[pos]).value >= Threshold(k, bias) {
      IntegerIsDigits(tail, pos + 1, k + BASE, bias);
    }
  }

  lemma {:induction false} TailIsDigits(tail: Units, pos: nat, s: Decoder)
    requires pos <= |tail| && DecodeTail(tail, pos, s).Some?
    ensures forall i | pos <= i < |tail| :: DigitFor(tail[i]).Some?
    decreases |tail| - pos
  {
    hide Insert;
    if pos < |tail| {
      var (delta, next) := ReadInteger(tail, pos, BASE, s.bias).value;
      IntegerIsDigits(tail, pos, BASE, s.bias);
      TailIsDigits(tail, next, Insert(s, s.i + delta).value);
    }
  }

  lemma NonDigitFails(tail: Units, i: nat, s: Decoder)
    requires i < |tail| && DigitFor(tail[i]).None?
    ensures DecodeTail(tail, 0, s).None?
  {
    if DecodeTail(tail, 0, s).Some? {
      TailIsDigits(tail, 0, s);
    }
  }

  /** A label without the prefix stays as it is. */
  lemma OtherLabelsStay(host: Units)
    requires |host| < 4 || host[..4] != [120, 110, 45, 45]
    ensures DecodeLabel(host) == host
  {
  }

  /** So does one with no hyphen but perhaps in front that has a character that is no digit, as that hyphen. */
  lemma BareNonDigitsStay(payload: Units, i: nat)
    requires i < |payload| && DigitFor(payload[i]).None? && HYPHEN !in payload[1..]
    ensures DecodeLabel([120, 110, 45, 45] + payload) == [120, 110, 45, 45] + payload
  {
    hide DecodeTail;
    var host := PREFIX + payload;
    assert host[4..] == payload;
    assert forall j | 0 < j < |payload| :: payload[j] == payload[1..][j - 1];
    NonDigitFails(payload, i, Decoder([], INITIAL_N, 0, INITIAL_BIAS));
  }

  /** And so does one with such a character after its last hyphen. */
  lemma NonDigitsStay(basic: Units, tail: Units, i: nat)
    requires basic != [] && HYPHEN !in tail && i < |tail| && DigitFor(tail[i]).None?
    ensures DecodeLabel([120, 110, 45, 45] + basic + [45] + tail) == [120, 110, 45, 45] + basic + [45] + tail
  {
    hide DecodeTail;
    var host := PREFIX + basic + [45] + tail;
    assert host[4..] == basic + [45] + tail;
    LastIndexOfSplit(basic, 45, tail);
    assert host[4..][|basic| + 1..] == tail && host[4..][..|basic|] == basic;
    NonDigitFails(tail, i, Decoder(basic, INITIAL_N, 0, INITIAL_BIAS));
  }

  /** Above the basic multilingual plane a code point is the surrogate pair that stands for it. */
  lemma PairStandsForPoint(n: nat)
    requires 0x10000 <= n <= 0x10FFFF
    ensures var units := FromCodePoint(n).value;
      && |units| == 2 && 0xD800 <= units[0] < 0xDC00 <= units[1] < 0xE000
      && 0x10000 + (units[0] - 0xD800) * 0x400 + (units[1] - 0xDC00) == n
  {
  }
}
