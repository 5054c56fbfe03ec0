/**
 * The text that stands for a participant set in a thread key: the sorted members as a JSON array.
 * It determines the set, and it never contains a NUL.
 */
module ParticipantKey {
  // Lexicographic order on texts; the keys only need it to be total.
  predicate Less(a: string, b: string) {
    b != "" && (a == "" || a[0] < b[0] || (a[0] == b[0] && Less(a[1..], b[1..])))
  }

  lemma {:induction false} LessIsTotal(a: string, b: string)
    ensures Less(a, b) || a == b || Less(b, a)
    ensures !(Less(a, b) && Less(b, a)) && !Less(a, a)
  {
    if a != "" && b != "" {
      LessIsTotal(a[1..], b[1..]);
      LessIsTotal(a[1..], a[1..]);
      assert a == [a[0]] + a[1..] && b == [b[0]] + b[1..];
    } else if a != "" {
      LessIsTotal(a[1..], a[1..]);
    }
  }

  lemma {:induction false} LessIsTransitive(a: string, b: string, c: string)
    requires Less(a, b) && Less(b, c)
    ensures Less(a, c)
  {
    if a != "" && a[0] == b[0] == c[0] {
      LessIsTransitive(a[1..], b[1..], c[1..]);
    }
  }

  ghost predicate Ascending(xs: seq<string>) {
    forall i, j | 0 <= i < j < |xs| :: Less(xs[i], xs[j])
  }

  ghost function Elements(xs: seq<string>): set<string> {
    set x | x in xs
  }

  function InsertSorted(xs: seq<string>, x: string): seq<string> {
    if xs == [] then [x]
    else if x == xs[0] then xs
    else if Less(x, xs[0]) then [x] + xs
    else [xs[0]] + InsertSorted(xs[1..], x)
  }

  // The distinct texts of xs, sorted.
  function SortDistinct(xs: seq<string>): seq<string> {
    if xs == [] then [] else InsertSorted(SortDistinct(xs[..|xs| - 1]), xs[|xs| - 1])
  }

  lemma {:induction false} InsertSortedAdds(xs: seq<string>, x: string)
    ensures forall y :: y in InsertSorted(xs, x) <==> y in xs || y == x
  {
    if xs != [] {
      assert xs == [xs[0]] + xs[1..];
      InsertSortedAdds(xs[1..], x);
    }
  }

  lemma PrependAscends(x: string, xs: seq<string>)
    requires Ascending(xs) && forall y | y in xs :: Less(x, y)
    ensures Ascending([x] + xs)
  {
  }

  lemma {:induction false} InsertSortedAscends(xs: seq<string>, x: string)
    requires Ascending(xs)
    ensures Ascending(InsertSorted(xs, x))
  {
    if xs != [] && x != xs[0] {
      LessIsTotal(x, xs[0]);
      if Less(x, xs[0]) {
        forall y | y in xs ensures Less(x, y) {
          if y != xs[0] {
            LessIsTransitive(x, xs[0], y);
          }
        }
        PrependAscends(x, xs);
      } else {
        InsertSortedAscends(xs[1..], x);
        InsertSortedAdds(xs[1..], x);
        PrependAscends(xs[0], InsertSorted(xs[1..], x));
      }
    }
  }

  lemma {:induction false} SortDistinctKeeps(xs: seq<string>)
    ensures Ascending(SortDistinct(xs)) && Elements(SortDistinct(xs)) == Elements(xs)
  {
    if xs != [] {
      var init, last := xs[..|xs| - 1], xs[|xs| - 1];
      assert xs == init + [last];
      SortDistinctKeeps(init);
      InsertSortedAscends(SortDistinct(init), last);
      InsertSortedAdds(SortDistinct(init), last);
      forall y ensures y in SortDistinct(xs) <==> y in xs {
        assert y in Elements(SortDistinct(init)) <==> y in Elements(init);
      }
    }
  }

  lemma NoElements(xs: seq<string>)
    ensures Elements(xs) == {} <==> xs == []
  {
    if xs != [] {
      assert xs[0] in Elements(xs);
    }
  }

  // Ascending texts are determined by their elements.
  lemma {:induction false} AscendingIsUnique(xs: seq<string>, ys: seq<string>)
    requires Ascending(xs) && Ascending(ys) && Elements(xs) == Elements(ys)
    ensures xs == ys
  {
    NoElements(xs);
    NoElements(ys);
    if xs != [] {
      assert xs[0] in Elements(ys);
      var j :| 0 <= j < |ys| && ys[j] == xs[0];
      assert ys[0] in Elements(xs);
      var i :| 0 <= i < |xs| && xs[i] == ys[0];
      LessIsTotal(xs[0], ys[0]);
      assert i == j == 0;
      forall x ensures x in Elements(xs[1..]) <==> x in Elements(xs) && x != xs[0] {
        LessIsTotal(x, x);
        if x in Elements(xs) && x != xs[0] {
          var k :| 0 <= k < |xs| && xs[k] == x;
          assert xs[1..][k - 1] == x;
        }
      }
      forall x ensures x in Elements(ys[1..]) <==> x in Elements(ys) && x != ys[0] {
        LessIsTotal(x, x);
        if x in Elements(ys) && x != ys[0] {
          var k :| 0 <= k < |ys| && ys[k] == x;
          assert ys[1..][k - 1] == x;
        }
      }
      AscendingIsUnique(xs[1..], ys[1..]);
    }
  }

  function HexDigit(d: nat): char
    requires d < 16
  {
    if d < 10 then '0' + d as char else 'a' + (d - 10) as char
  }

  // One character of a JSON string; well-formed text has no lone surrogates to escape.
  function EscapeChar(c: char): (code: string)
    ensures code != "" && code[0] != '"' && '\0' !in code
    ensures |code| == 1 ==> code == [c] && c != '\\'
    ensures |code| > 1 ==> code[0] == '\\'
  {
    if c == '"' then "\\\""
    else if c == '\\' then "\\\\"
    else if c as int == 8 then "\\b"
    else if c as int == 9 then "\\t"
    else if c as int == 10 then "\\n"
    else if c as int == 12 then "\\f"
    else if c as int == 13 then "\\r"
    else if c as int < 32 then "\\u00" + [HexDigit(c as int / 16), HexDigit(c as int % 16)]
    else [c]
  }

  function Escape(s: string): (code: string)
    ensures '\0' !in code
  {
    if s == "" then "" else EscapeChar(s[0]) + Escape(s[1..])
  }

  // The rest of an array after its first element's opening quote.
  function Items(xs: seq<string>): (code: string)
    requires xs != []
    ensures '\0' !in code
  {
    Escape(xs[0]) + "\"" + if |xs| == 1 then "]" else ",\"" + Items(xs[1..])
  }

  function StringifyArray(xs: seq<string>): (code: string)
    ensures '\0' !in code
  {
    if xs == [] then "[]" else "[\"" + Items(xs)
  }

  lemma EscapeCharIsPrefixFree(c: char, d: char, p: string, q: string)
    requires EscapeChar(c) + p == EscapeChar(d) + q
    ensures c == d && p == q
  {
    var s := EscapeChar(c) + p;
    var a, b := EscapeChar(c), EscapeChar(d);
    assert s[0] == a[0] == b[0];
    if |a| > 1 {
      assert s[1] == a[1] == b[1];
      if |a| == 6 {
        assert s[4] == a[4] == b[4] && s[5] == a[5] == b[5];
      }
    }
    assert s[|a|..] == p && s[|b|..] == q;
  }

  lemma EscapeThen(a: string, p: string)
    ensures Escape(a) + "\"" + p ==
            if a == "" then "\"" + p else EscapeChar(a[0]) + (Escape(a[1..]) + "\"" + p)
  {
  }

  lemma {:induction false} EscapeIsPrefixFree(a: string, b: string, p: string, q: string)
    requires Escape(a) + "\"" + p == Escape(b) + "\"" + q
    ensures a == b && p == q
  {
    EscapeThen(a, p);
    EscapeThen(b, q);
    var s := Escape(a) + "\"" + p;
    if a == "" || b == "" {
      assert s[0] == '"' && s[1..] == p && s[1..] == q;
    } else {
      var x, y := Escape(a[1..]) + "\"" + p, Escape(b[1..]) + "\"" + q;
      EscapeCharIsPrefixFree(a[0], b[0], x, y);
      EscapeIsPrefixFree(a[1..], b[1..], p, q);
      assert a == [a[0]] + a[1..] && b == [b[0]] + b[1..];
    }
  }

  lemma {:induction false} ItemsAreInjective(xs: seq<string>, ys: seq<string>)
    requires xs != [] && ys != [] && Items(xs) == Items(ys)
    ensures xs == ys
  {
    var p := if |xs| == 1 then "]" else ",\"" + Items(xs[1..]);
    var q := if |ys| == 1 then "]" else ",\"" + Items(ys[1..]);
    EscapeIsPrefixFree(xs[0], ys[0], p, q);
    assert p[0] == q[0];
    if |xs| > 1 {
      assert p[2..] == Items(xs[1..]) && q[2..] == Items(ys[1..]);
      ItemsAreInjective(xs[1..], ys[1..]);
    }
    assert xs == [xs[0]] + xs[1..] && ys == [ys[0]] + ys[1..];
  }

  lemma StringifyArrayIsInjective(xs: seq<string>, ys: seq<string>)
    requires StringifyArray(xs) == StringifyArray(ys)
    ensures xs == ys
  {
    var s := StringifyArray(xs);
    if xs != [] && ys != [] {
      assert s[2..] == Items(xs) && s[2..] == Items(ys);
      ItemsAreInjective(xs, ys);
    } else {
      assert s[1] == if xs == [] then ']' else '"';
      assert s[1] == if ys == [] then ']' else '"';
    }
  }

  // The key text of participants listed in any order, with repeats.
  function KeyOf(participants: seq<string>): (code: string)
    ensures '\0' !in code
  {
    StringifyArray(SortDistinct(participants))
  }

  /** Two participant lists have the same key text exactly when they are the same set. */
  lemma KeyIsTheSet(xs: seq<string>, ys: seq<string>)
    ensures KeyOf(xs) == KeyOf(ys) <==> Elements(xs) == Elements(ys)
  {
    SortDistinctKeeps(xs);
    SortDistinctKeeps(ys);
    if KeyOf(xs) == KeyOf(ys) {
      StringifyArrayIsInjective(SortDistinct(xs), SortDistinct(ys));
    } else if Elements(xs) == Elements(ys) {
      AscendingIsUnique(SortDistinct(xs), SortDistinct(ys));
    }
  }
}
