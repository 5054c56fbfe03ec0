/** Splitting, joining and trimming text, and decimal numerals, as JavaScript's own functions do them. */
module Text {
  // The position of the first c, or |s|.
  function IndexOf(s: string, c: char): (i: nat)
    ensures i <= |s| && c !in s[..i] && (i < |s| ==> s[i] == c)
    ensures i == |s| <==> c !in s
  {
    if s == [] || s[0] == c then 0 else 1 + IndexOf(s[1..], c)
  }

  function Split(s: string, c: char): (parts: seq<string>)
    ensures |parts| >= 1
    decreases |s|
  {
    var i := IndexOf(s, c);
    if i == |s| then [s] else [s[..i]] + Split(s[i + 1..], c)
  }

  function Join(parts: seq<string>, separator: string): string {
    if parts == [] then ""
    else if |parts| == 1 then parts[0]
    else parts[0] + separator + Join(parts[1..], separator)
  }

  lemma {:induction false} IndexOfPrefix(a: string, c: char, b: string)
    requires c !in a
    ensures IndexOf(a + [c] + b, c) == |a|
  {
    if a == [] {
      assert (a + [c] + b)[0] == c;
    } else {
      assert (a + [c] + b)[0] == a[0] && (a + [c] + b)[1..] == a[1..] + [c] + b;
      IndexOfPrefix(a[1..], c, b);
    }
  }

  lemma SplitPrefix(a: string, c: char, b: string)
    requires c !in a
    ensures Split(a + [c] + b, c) == [a] + Split(b, c)
  {
    var s := a + [c] + b;
    IndexOfPrefix(a, c, b);
    assert s[..|a|] == a && s[|a| + 1..] == b;
  }

  lemma SplitWhole(a: string, c: char)
    requires c !in a
    ensures Split(a, c) == [a]
  {
  }

  lemma SplitSome(a: string, c: char)
    requires c in a
    ensures |Split(a, c)| >= 2
  {
  }

  // A separator on the left means at least two parts before what follows.
  lemma {:induction false} SplitCount(a: string, c: char, b: string)
    ensures |Split(a + [c] + b, c)| == |Split(a, c)| + |Split(b, c)|
    decreases |a|
  {
    if c !in a {
      SplitPrefix(a, c, b);
      SplitWhole(a, c);
    } else {
      var i := IndexOf(a, c);
      var rest := a[i + 1..];
      assert a == a[..i] + [c] + rest;
      assert a + [c] + b == a[..i] + [c] + (rest + [c] + b);
      SplitPrefix(a[..i], c, rest + [c] + b);
      SplitPrefix(a[..i], c, rest);
      SplitCount(rest, c, b);
    }
  }

  function LowerChar(c: char): char {
    if 'A' <= c <= 'Z' then (c as int + 32) as char else c
  }

  // Lower case, of the ASCII letters.
  function Lower(s: string): string {
    seq(|s|, i requires 0 <= i < |s| => LowerChar(s[i]))
  }

  const CAPITALS: string := "ABCDEFGHIJKLMNOPQRSTUVWXYZ"
  const SMALL: string := "abcdefghijklmnopqrstuvwxyz"

  /** Each capital becomes its small letter, and nothing else changes. */
  lemma LowerIs(s: string, i: nat, k: nat)
    requires i < |s| && k < 26
    ensures |Lower(s)| == |s| && (s[i] == CAPITALS[k] ==> Lower(s)[i] == SMALL[k])
    ensures s[i] !in CAPITALS ==> Lower(s)[i] == s[i]
  {
    var c := s[i];
    CapitalsFollow(k);
    if 'A' <= c <= 'Z' {
      CapitalsFollow(c as nat - 65);
    }
  }

  lemma CapitalsFollow(k: nat)
    requires k < 26
    ensures CAPITALS[k] as int == 65 + k && SMALL[k] as int == 97 + k
  {
  }

  // The white space and line terminators of ECMAScript, which `trim` removes and `\s` matches.
  predicate IsSpace(c: char) {
    var code := c as int;
    9 <= code <= 13 || code == 32 || code == 0xA0 || code == 0x1680 || 0x2000 <= code <= 0x200A ||
    code == 0x2028 || code == 0x2029 || code == 0x202F || code == 0x205F || code == 0x3000 || code == 0xFEFF
  }

  function TrimStart(s: string): string {
    if s != "" && IsSpace(s[0]) then TrimStart(s[1..]) else s
  }

  function TrimEnd(s: string): string {
    if s != "" && IsSpace(s[|s| - 1]) then TrimEnd(s[..|s| - 1]) else s
  }

  function Trim(s: string): string {
    TrimEnd(TrimStart(s))
  }

  function Digit(d: nat): char
    requires d < 10
  {
    '0' + d as char
  }

  function Decimal(n: nat): (text: string)
    ensures text != "" && forall c | c in text :: '0' <= c <= '9'
  {
    if n < 10 then [Digit(n)] else Decimal(n / 10) + [Digit(n % 10)]
  }

  // The number that decimal digits write.
  function NumberOf(digits: string): int {
    if digits == "" then 0 else 10 * NumberOf(digits[..|digits| - 1]) + (digits[|digits| - 1] as int - '0' as int)
  }

  /** A numeral writes its number, and starts with a zero only as `0`. */
  lemma {:induction false} DecimalWrites(n: nat)
    ensures NumberOf(Decimal(n)) == n && (Decimal(n)[0] == '0' <==> n == 0)
  {
    if n >= 10 {
      DecimalWrites(n / 10);
      var text := Decimal(n);
      assert text[..|text| - 1] == Decimal(n / 10) && text[0] == Decimal(n / 10)[0];
    } else {
      assert Decimal(n)[..0] == "";
    }
  }

  /** Trimming takes off exactly the white space at either end. */
  lemma {:induction false} TrimIs(s: string)
    ensures var t := Trim(s);
      && (t == "" || (!IsSpace(t[0]) && !IsSpace(t[|t| - 1])))
      && exists i: nat, j: nat :: i <= j <= |s| && s[i..j] == t &&
           (forall k | 0 <= k < i :: IsSpace(s[k])) && (forall k | j <= k < |s| :: IsSpace(s[k]))
  {
    var i := TrimStartAt(s);
    var u := TrimStart(s);
    var j := TrimEndAt(u);
    assert s[i..i + j] == u[..j] == Trim(s);
    forall k | i + j <= k < |s| ensures IsSpace(s[k]) {
      assert u[k - i] == s[k];
    }
    if Trim(s) != "" {
      assert Trim(s)[0] == u[0];
    }
  }

  lemma {:induction false} TrimStartAt(s: string) returns (i: nat)
    ensures i <= |s| && TrimStart(s) == s[i..] && forall k | 0 <= k < i :: IsSpace(s[k])
    ensures TrimStart(s) == "" || !IsSpace(TrimStart(s)[0])
  {
    i := 0;
    if s != "" && IsSpace(s[0]) {
      i := TrimStartAt(s[1..]);
      i := i + 1;
    }
  }

  lemma {:induction false} TrimEndAt(s: string) returns (j: nat)
    ensures j <= |s| && TrimEnd(s) == s[..j] && forall k | j <= k < |s| :: IsSpace(s[k])
    ensures TrimEnd(s) == "" || !IsSpace(TrimEnd(s)[|TrimEnd(s)| - 1])
  {
    j := |s|;
    if s != "" && IsSpace(s[|s| - 1]) {
      j := TrimEndAt(s[..|s| - 1]);
    }
  }
}
