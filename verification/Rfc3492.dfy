/**
 * The encoder of section 6.3 of RFC 3492, with the parameters of section 5 and the bias adaptation of
 * section 6.1, on sequences of code points.
 */
module Rfc3492 {
  // Section 5: a to z are 0 to 25, 0 to 9 are 26 to 35.
  function EncodeDigit(d: nat): (code: nat)
    requires d < 36
    ensures code != 45
  {
    if d < 26 then 97 + d else 48 + (d - 26)
  }

  function ThresholdAt(k: nat, bias: nat): (t: nat)
    ensures 1 <= t <= 26
  {
    if k <= bias + 1 then 1 else if k >= bias + 26 then 26 else k - bias
  }

  // The loop of section 6.1 and its result.
  function Scaled(delta: nat, k: nat): nat
    decreases delta
  {
    if delta > ((36 - 1) * 26) / 2 then Scaled(delta / (36 - 1), k + 36)
    else k + ((36 - 1 + 1) * delta) / (delta + 38)
  }

  function AdaptBias(delta: nat, points: nat, first: bool): nat
    requires points > 0
  {
    Scaled(Compensated(if first then delta / 700 else delta / 2, points), 0)
  }

  // The text is about to get longer.
  function Compensated(delta: nat, points: nat): nat
    requires points > 0
  {
    delta + delta / points
  }

  // A generalized variable-length integer, section 3.3.
  function EncodeInteger(q: nat, k: nat, bias: nat): (digits: seq<nat>)
    ensures forall d | d in digits :: d != 45
    decreases q
  {
    var t := ThresholdAt(k, bias);
    if q < t then [EncodeDigit(q)]
    else [EncodeDigit(LowDigit(q, t))] + EncodeInteger(Higher(q, t), k + 36, bias)
  }

  function LowDigit(q: nat, t: nat): (d: nat)
    requires 1 <= t <= 26 && t <= q
    ensures d < 36
  {
    t + (q - t) % (36 - t)
  }

  function Higher(q: nat, t: nat): (rest: nat)
    requires 1 <= t <= 26 && t <= q
    ensures rest < q
  {
    var radix := 36 - t;
    assert (q - t) / radix <= q - t;
    (q - t) / radix
  }

  function Below(u: seq<nat>, bound: nat): (kept: seq<nat>)
    ensures |kept| <= |u|
  {
    if u == [] then []
    else if u[|u| - 1] < bound then Below(u[..|u| - 1], bound) + [u[|u| - 1]]
    else Below(u[..|u| - 1], bound)
  }

  // The code points inserted once every one below n, and those equal to n before position j, are in.
  function Inserted(u: seq<nat>, n: nat, j: nat): seq<nat>
    requires j <= |u|
  {
    Below(u[..j], n + 1) + Below(u[j..], n)
  }

  function MinFrom(u: seq<nat>, n: nat): (m: nat)
    requires exists c | c in u :: c >= n
    ensures m in u && m >= n && forall c | c in u && c >= n :: m <= c
  {
    assert u == [u[0]] + u[1..];
    if forall c | c in u[1..] :: c < n then u[0]
    else
      var rest := MinFrom(u[1..], n);
      if n <= u[0] < rest then u[0] else rest
  }

  // The states a scan passes when it skips whole rows.
  function Skip(rows: nat, h: nat): nat {
    rows * (h + 1)
  }

  // The encoder's scan at code point n and position j. The number of code points handled so far,
  // the RFC's h, is the number inserted.
  function EncodeScan(u: seq<nat>, n: nat, j: nat, delta: nat, bias: nat): (digits: seq<nat>)
    requires j <= |u| && n in u && forall c | c in u :: c < 0x10000
    ensures forall d | d in digits :: d != 45
    decreases 0x10000 - n, |u| - j
  {
    var h := |Inserted(u, n, j)|;
    if j < |u| then
      if u[j] < n then EncodeScan(u, n, j + 1, delta + 1, bias)
      else if u[j] > n then EncodeScan(u, n, j + 1, delta, bias)
      else EncodeInteger(delta, 36, bias) +
           EncodeScan(u, n, j + 1, 0, AdaptBias(delta, h + 1, h == |Below(u, 128)|))
    else if exists c | c in u :: c > n then
      var m := MinFrom(u, n + 1);
      EncodeScan(u, m, 0, delta + 1 + Skip(m - (n + 1), h), bias)
    else []
  }

  // The digits after the delimiter.
  function EncodeTail(u: seq<nat>): (tail: seq<nat>)
    requires forall c | c in u :: c < 0x10000
    ensures 45 !in tail
  {
    if exists c | c in u :: c >= 128 then
      var m := MinFrom(u, 128);
      EncodeScan(u, m, 0, Skip(m - 128, |Below(u, 128)|), 72)
    else []
  }

  function EncodeLabel(u: seq<nat>): seq<nat>
    requires forall c | c in u :: c < 0x10000
  {
    var basic := Below(u, 128);
    [120, 110, 45, 45] + (if basic == [] then [] else basic + [45]) + EncodeTail(u)
  }
}
