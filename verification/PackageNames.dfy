/** Which texts name a contract file: labels in any of their wrappings, and info strings. */
module PackageNames {
  import opened Options
  import opened Text
  import opened DeployablePackage

  const MANIFEST_NAME: string := "package.json"
  const DEFINITION_NAME: string := "definition.json"

  function NameOf(file: File): string {
    if file == Manifest then MANIFEST_NAME else DEFINITION_NAME
  }

  lemma LowerNameStays(file: File)
    ensures Lower(NameOf(file)) == NameOf(file)
  {
  }

  ghost predicate AllTicks(s: string) {
    forall i | 0 <= i < |s| :: s[i] == '`'
  }

  ghost predicate AllMarks(s: string) {
    forall i | 0 <= i < |s| :: s[i] == '`' || s[i] == ':'
  }

  lemma {:induction false} TicksStartDropped(ticks: string, rest: string)
    requires AllTicks(ticks) && rest != "" && rest[0] != '`'
    ensures DropTicksStart(ticks + rest) == rest
  {
    if ticks == "" {
      assert ticks + rest == rest;
    } else {
      assert (ticks + rest)[0] == ticks[0] && (ticks + rest)[1..] == ticks[1..] + rest;
      TicksStartDropped(ticks[1..], rest);
    }
  }

  lemma {:induction false} TicksEndDropped(name: string, suffix: string)
    requires name != "" && name[|name| - 1] != '`'
    ensures DropTicksEnd(name + suffix) == name + DropTicksEnd(suffix)
  {
    if suffix == "" {
      assert name + suffix == name;
    } else if suffix[|suffix| - 1] == '`' {
      assert (name + suffix)[..|name + suffix| - 1] == name + suffix[..|suffix| - 1];
      TicksEndDropped(name, suffix[..|suffix| - 1]);
    }
  }

  // What is left of a suffix once the trailing backticks and then one colon are dropped.
  function Remains(suffix: string): string {
    DropColon(DropTicksEnd(suffix))
  }

  // At most one colon, followed only by backticks.
  ghost predicate ClosesLabel(suffix: string) {
    AllTicks(suffix) || (suffix[0] == ':' && AllTicks(suffix[1..]))
  }

  lemma TickAppended(s: string)
    ensures AllTicks(s + "`") <==> AllTicks(s)
  {
    assert forall i | 0 <= i < |s| :: (s + "`")[i] == s[i];
  }

  lemma {:induction false} RemainsIff(suffix: string)
    requires AllMarks(suffix)
    ensures AllMarks(Remains(suffix))
    ensures DropTicksEnd(suffix) == "" <==> AllTicks(suffix)
    ensures Remains(suffix) == "" <==> ClosesLabel(suffix)
  {
    if suffix != "" && suffix[|suffix| - 1] == '`' {
      var init := suffix[..|suffix| - 1];
      assert suffix == init + "`";
      RemainsIff(init);
      TickAppended(init);
      if init != "" {
        assert suffix[1..] == init[1..] + "`";
        TickAppended(init[1..]);
      }
    } else if suffix != "" {
      assert suffix[|suffix| - 1] == ':';
      if |suffix| > 1 {
        assert suffix[1..][|suffix| - 2] == ':';
      }
    }
  }

  lemma NoSpaceAround(s: string)
    requires s != "" && !IsSpace(s[0]) && !IsSpace(s[|s| - 1])
    ensures Trim(s) == s
  {
  }

  ghost predicate AllSpaces(s: string) {
    forall i | 0 <= i < |s| :: IsSpace(s[i])
  }

  // The name of the file in some mixture of capitals and small letters.
  ghost predicate IsNameOf(name: string, file: File) {
    Lower(name) == NameOf(file)
  }

  // What stands before the name in a path, to its last slash.
  ghost predicate IsPath(path: string) {
    path == "" || (path[|path| - 1] == '/' && !IsSpace(path[0]) && path[0] != '`' && path[0] != '/' && path[0] != '#')
  }

  ghost predicate IsMarker(marker: string, gap: string) {
    AllSpaces(gap) && ((marker == "" && gap == "") || marker == "//" || marker == "#")
  }

  lemma LowerAt(name: string, file: File, i: nat)
    requires IsNameOf(name, file) && i < |name|
    ensures |name| == |NameOf(file)| && LowerChar(name[i]) == NameOf(file)[i]
  {
    assert Lower(name)[i] == LowerChar(name[i]);
  }

  lemma NamePlain(file: File, i: nat)
    requires i < |NameOf(file)|
    ensures var c := NameOf(file)[i]; c == '.' || 'a' <= c <= 'z'
    ensures 'a' <= NameOf(file)[0] <= 'z' && NameOf(file)[|NameOf(file)| - 1] == 'n'
  {
  }

  // No character of a name is white space, a mark, a slash or a comment sign, and it ends in a letter.
  lemma NameIsPlain(name: string, file: File)
    requires IsNameOf(name, file)
    ensures name != "" && '/' !in name && name[|name| - 1] != '`' && name[|name| - 1] != ':'
    ensures forall i | 0 <= i < |name| :: !IsSpace(name[i])
    ensures name[0] != '`' && name[0] != '/' && name[0] != '#'
  {
    assert |name| == |Lower(name)|;
    forall i | 0 <= i < |name| ensures name[i] == '.' || 'a' <= LowerChar(name[i]) <= 'z' {
      LowerAt(name, file, i);
      NamePlain(file, i);
    }
    LowerAt(name, file, 0);
    LowerAt(name, file, |name| - 1);
    NamePlain(file, 0);
  }

  lemma {:induction false} SpacesStartTrimmed(pad: string, s: string)
    requires AllSpaces(pad) && s != "" && !IsSpace(s[0])
    ensures TrimStart(pad + s) == s
  {
    if pad == "" {
      assert pad + s == s;
    } else {
      assert (pad + s)[0] == pad[0] && (pad + s)[1..] == pad[1..] + s;
      SpacesStartTrimmed(pad[1..], s);
    }
  }

  lemma {:induction false} SpacesEndTrimmed(s: string, pad: string)
    requires AllSpaces(pad) && s != "" && !IsSpace(s[|s| - 1])
    ensures TrimEnd(s + pad) == s
  {
    if pad == "" {
      assert s + pad == s;
    } else {
      assert (s + pad)[..|s + pad| - 1] == s + pad[..|pad| - 1];
      SpacesEndTrimmed(s, pad[..|pad| - 1]);
    }
  }

  lemma PaddingTrimmed(before: string, s: string, after: string)
    requires AllSpaces(before) && AllSpaces(after) && s != "" && !IsSpace(s[0]) && !IsSpace(s[|s| - 1])
    ensures Trim(before + s + after) == s
  {
    assert before + s + after == before + (s + after);
    SpacesStartTrimmed(before, s + after);
    SpacesEndTrimmed(s, after);
  }

  lemma CommentDropped(marker: string, gap: string, rest: string)
    requires IsMarker(marker, gap) && rest != "" && !IsSpace(rest[0]) && rest[0] != '/' && rest[0] != '#'
    ensures DropComment(marker + gap + rest) == rest
  {
    var s := marker + gap + rest;
    SpacesStartTrimmed(gap, rest);
    if marker == "" {
      assert s == rest;
    } else {
      assert s[|marker|..] == gap + rest && s[..|marker|] == marker;
      assert marker == "#" ==> s[0] == '#';
    }
  }

  // The name behind its path, once the ticks and the colon after it are gone.
  lemma NameIsLeft(path: string, name: string, file: File, suffix: string)
    requires IsPath(path) && IsNameOf(name, file) && AllMarks(suffix)
    ensures Trim(DropColon(DropTicksEnd(path + name + suffix))) == path + name + Remains(suffix)
  {
    NameIsPlain(name, file);
    var stem := path + name;
    hide DropTicksEnd, Trim, IsNameOf;
    assert stem[|stem| - 1] == name[|name| - 1] && stem[0] == if path == "" then name[0] else path[0];
    TicksEndDropped(stem, suffix);
    var core := DropTicksEnd(suffix);
    RemainsIff(suffix);
    assert DropColon(stem + core) == stem + DropColon(core);
    var rest := Remains(suffix);
    assert (stem + rest)[|stem + rest| - 1] == if rest == "" then stem[|stem| - 1] else rest[|rest| - 1];
    NoSpaceAround(stem + rest);
  }

  // A label without the white space around it: a comment marker, backticks, a path, the name, and marks.
  function LabelOf(marker: string, gap: string, ticks: string, path: string, name: string, suffix: string): string {
    marker + gap + (ticks + (path + name + suffix))
  }

  lemma LabelEnds(marker: string, gap: string, ticks: string, path: string, name: string, file: File, suffix: string)
    requires IsMarker(marker, gap) && AllTicks(ticks) && IsPath(path) && IsNameOf(name, file) && AllMarks(suffix)
    ensures var rest, core := ticks + (path + name + suffix), LabelOf(marker, gap, ticks, path, name, suffix);
      && rest != "" && !IsSpace(rest[0]) && rest[0] != '/' && rest[0] != '#'
      && core != "" && !IsSpace(core[0]) && !IsSpace(core[|core| - 1])
    ensures (path + name + suffix)[0] != '`'
  {
    NameIsPlain(name, file);
    hide IsNameOf;
    var tail := path + name + suffix;
    var rest := ticks + tail;
    var core := marker + gap + rest;
    assert tail[0] == if path == "" then name[0] else path[0];
    assert rest[0] == if ticks == "" then tail[0] else ticks[0];
    assert core[0] == if marker == "" then rest[0] else marker[0];
    assert tail[|tail| - 1] == if suffix == "" then name[|name| - 1] else suffix[|suffix| - 1];
    assert core[|core| - 1] == rest[|rest| - 1] == tail[|tail| - 1];
  }

  lemma LabelIsStripped(before: string, marker: string, gap: string, ticks: string, path: string, name: string,
                        file: File, suffix: string, after: string)
    requires AllSpaces(before) && AllSpaces(after) && IsMarker(marker, gap) && AllTicks(ticks)
    requires IsPath(path) && IsNameOf(name, file) && AllMarks(suffix)
    ensures var text := before + LabelOf(marker, gap, ticks, path, name, suffix) + after;
      Trim(DropColon(DropTicksEnd(DropTicksStart(DropComment(Trim(text)))))) == path + name + Remains(suffix)
  {
    LabelEnds(marker, gap, ticks, path, name, file, suffix);
    hide IsNameOf, DropComment, DropTicksStart, DropTicksEnd, DropColon, Trim, Remains, AllMarks, IsPath;
    PaddingTrimmed(before, LabelOf(marker, gap, ticks, path, name, suffix), after);
    CommentDropped(marker, gap, ticks + (path + name + suffix));
    TicksStartDropped(ticks, path + name + suffix);
    NameIsLeft(path, name, file, suffix);
  }

  // The last of the segments between slashes.
  function LastSegment(s: string): string {
    var segments := Split(s, '/');
    segments[|segments| - 1]
  }

  lemma {:induction false} LastSegmentAfter(path: string, s: string)
    requires (path == "" || path[|path| - 1] == '/') && '/' !in s
    ensures LastSegment(path + s) == s
    decreases |path|
  {
    hide Split, IndexOf;
    if path == "" {
      assert path + s == s;
      SplitWhole(s, '/');
    } else {
      var i := IndexOf(path, '/');
      var first, rest := path[..i], path[i + 1..];
      assert path == first + ['/'] + rest && path + s == first + ['/'] + (rest + s);
      SplitPrefix(first, '/', rest + s);
      LastSegmentAfter(rest, s);
    }
  }

  lemma LowerWithMark(name: string, rest: string)
    requires rest != "" && AllMarks(rest)
    ensures Lower(name + rest) != "package.json" && Lower(name + rest) != "definition.json"
  {
    var last := rest[|rest| - 1];
    assert Lower(name + rest)[|name + rest| - 1] == last;
  }

  lemma NamedByLastSegment(text: string)
    ensures var stripped := Trim(DropColon(DropTicksEnd(DropTicksStart(DropComment(Trim(text))))));
      NamedFile(text) == if Lower(LastSegment(stripped)) == "package.json" then Some(Manifest)
                         else if Lower(LastSegment(stripped)) == "definition.json" then Some(Definition) else None
  {
  }

  lemma SlashFreeMarks(name: string, file: File, rest: string)
    requires IsNameOf(name, file) && AllMarks(rest)
    ensures '/' !in name + rest
  {
    NameIsPlain(name, file);
  }

  /** A label names its file through white space around it, a comment marker, a path before the name, capitals
      and any backticks in front. The backticks and the colon behind are stripped exactly when the colon, if
      any, stands inside the closing backticks and is the only one; otherwise the label names nothing. */
  lemma LabelNames(before: string, marker: string, gap: string, ticks: string, path: string, name: string,
                   file: File, suffix: string, after: string)
    requires AllSpaces(before) && AllSpaces(after) && IsMarker(marker, gap) && AllTicks(ticks)
    requires IsPath(path) && IsNameOf(name, file) && AllMarks(suffix)
    ensures NamedFile(before + LabelOf(marker, gap, ticks, path, name, suffix) + after) ==
            if ClosesLabel(suffix) then Some(file) else None
  {
    hide DropComment, DropTicksStart, DropTicksEnd, DropColon, Trim, LabelOf, NamedFile, Split, ClosesLabel;
    var rest := Remains(suffix);
    LabelIsStripped(before, marker, gap, ticks, path, name, file, suffix, after);
    RemainsIff(suffix);
    SlashFreeMarks(name, file, rest);
    LastSegmentAfter(path, name + rest);
    assert path + name + rest == path + (name + rest);
    NamedByLastSegment(before + LabelOf(marker, gap, ticks, path, name, suffix) + after);
    if rest == "" {
      assert name + rest == name;
    } else {
      LowerWithMark(name, rest);
    }
  }

  lemma NameNamesItself(file: File)
    ensures NamedFile(NameOf(file)) == Some(file)
  {
    LowerNameStays(file);
    LabelNames("", "", "", "", "", NameOf(file), file, "", "");
    assert "" + LabelOf("", "", "", "", NameOf(file), "") + "" == NameOf(file);
  }

  // A text that a name ends.
  ghost predicate EndsIn(s: string, name: string) {
    |s| >= |name| && s[|s| - |name|..] == name
  }

  lemma EndsInTail(s: string, i: nat, name: string)
    requires EndsIn(s, name) && i <= |s| - |name|
    ensures EndsIn(s[i..], name)
  {
  }

  lemma TrimKeepsEnd(s: string, file: File)
    requires EndsIn(s, NameOf(file))
    ensures EndsIn(TrimStart(s), NameOf(file)) && Trim(s) == TrimStart(s)
  {
    var name := NameOf(file);
    LowerNameStays(file);
    NameIsPlain(name, file);
    var i := TrimStartAt(s);
    assert s[|s| - |name|] == name[0];
    EndsInTail(s, i, name);
    assert TrimStart(s)[|TrimStart(s)| - 1] == name[|name| - 1];
  }

  lemma StartsElsewhere(s: string, i: nat, file: File)
    requires EndsIn(s, NameOf(file)) && i < |s| && (s[i] == '/' || (i == 0 && s[i] == '#'))
    ensures i + 1 <= |s| - |NameOf(file)|
  {
    hide NameOf, Lower;
    var name := NameOf(file);
    LowerNameStays(file);
    NameIsPlain(name, file);
    var at := |s| - |name|;
    assert forall k | at <= k < |s| :: s[k] == name[k - at];
  }

  lemma CommentKeepsEnd(s: string, file: File)
    requires EndsIn(s, NameOf(file))
    ensures EndsIn(DropComment(s), NameOf(file))
  {
    hide NameOf, TrimStart, EndsIn;
    if "//" <= s {
      assert s[1] == '/';
      StartsElsewhere(s, 1, file);
      EndsInTail(s, 2, NameOf(file));
      TrimKeepsEnd(s[2..], file);
    } else if "#" <= s {
      assert s[0] == '#';
      StartsElsewhere(s, 0, file);
      EndsInTail(s, 1, NameOf(file));
      TrimKeepsEnd(s[1..], file);
    }
  }

  lemma {:induction false} TicksKeepEnd(s: string, file: File)
    requires EndsIn(s, NameOf(file))
    ensures EndsIn(DropTicksStart(s), NameOf(file))
  {
    var name := NameOf(file);
    LowerNameStays(file);
    NameIsPlain(name, file);
    assert s[|s| - |name|] == name[0];
    if s != "" && s[0] == '`' {
      EndsInTail(s, 1, name);
      TicksKeepEnd(s[1..], file);
    }
  }

  lemma MarksKeepEnd(s: string, file: File)
    requires EndsIn(s, NameOf(file))
    ensures DropTicksEnd(s) == s && DropColon(s) == s
  {
    LowerNameStays(file);
    NameIsPlain(NameOf(file), file);
    assert s[|s| - 1] == NameOf(file)[|NameOf(file)| - 1];
  }

  lemma {:induction false} SegmentKeepsEnd(s: string, file: File)
    requires EndsIn(s, NameOf(file))
    ensures EndsIn(LastSegment(s), NameOf(file))
    decreases |s|
  {
    hide Split, IndexOf, NameOf, Lower;
    var name := NameOf(file);
    LowerNameStays(file);
    NameIsPlain(name, file);
    if '/' in s {
      var i := IndexOf(s, '/');
      var first, rest := s[..i], s[i + 1..];
      assert s == first + ['/'] + rest;
      StartsElsewhere(s, i, file);
      EndsInTail(s, i + 1, name);
      hide EndsIn;
      SplitPrefix(first, '/', rest);
      SegmentKeepsEnd(rest, file);
    } else {
      SplitWhole(s, '/');
    }
  }

  lemma LowerKeepsEnd(s: string, file: File)
    requires EndsIn(s, NameOf(file))
    ensures EndsIn(Lower(s), NameOf(file))
  {
    var name := NameOf(file);
    LowerNameStays(file);
    var at := |s| - |name|;
    forall i | 0 <= i < |name| ensures Lower(s)[at..][i] == name[i] {
      assert s[at..][i] == s[at + i] && Lower(name)[i] == LowerChar(name[i]);
    }
  }

  lemma OtherNameEndsElse(file: File, other: File)
    requires EndsIn(NameOf(other), NameOf(file))
    ensures other == file
  {
  }

  // Whatever stands before a file's name, the text never names the other file.
  lemma EndNamesNoOther(text: string, file: File)
    requires EndsIn(text, NameOf(file))
    ensures NamedFile(text) == None || NamedFile(text) == Some(file)
  {
    hide EndsIn;
    TrimKeepsEnd(text, file);
    var a := Trim(text);
    CommentKeepsEnd(a, file);
    TicksKeepEnd(DropComment(a), file);
    var b := DropTicksStart(DropComment(a));
    MarksKeepEnd(b, file);
    TrimKeepsEnd(b, file);
    SegmentKeepsEnd(Trim(b), file);
    LowerKeepsEnd(LastSegment(Trim(b)), file);
    NamedByLastSegment(text);
    if NamedFile(text).Some? {
      OtherNameEndsElse(file, NamedFile(text).value);
    }
  }

  lemma {:induction false} LastTokenIs(front: string, name: string)
    requires (front == "" || IsSpace(front[|front| - 1])) && forall i | 0 <= i < |name| :: !IsSpace(name[i])
    ensures LastToken(front + name) == name
  {
    if name == "" {
      assert front + name == front;
    } else {
      var init := name[..|name| - 1];
      assert (front + name)[..|front + name| - 1] == front + init;
      LastTokenIs(front, init);
    }
  }

  // What trimming leaves before a name behind white space ends in white space, if it leaves anything.
  lemma FrontOf(before: string, name: string) returns (front: string)
    requires before != "" && IsSpace(before[|before| - 1]) && name != "" && !IsSpace(name[0])
    ensures TrimStart(before + name) == front + name && (front == "" || IsSpace(front[|front| - 1]))
  {
    var s := before + name;
    hide TrimStart;
    var i := TrimStartAt(s);
    assert s[|before|] == name[0];
    front := before[i..];
    assert s[i..] == front + name;
  }

  /** A file's name behind a language, or behind anything and white space, names the file as an info string. */
  lemma InfoNamesLastToken(language: string, gap: char, file: File)
    requires IsSpace(gap)
    ensures NamedFileFromInfo(language + [gap] + NameOf(file)) == Some(file)
  {
    hide NameOf, TrimStart, Trim, NamedFile, LastToken, Lower;
    var name, info := NameOf(file), language + [gap] + NameOf(file);
    LowerNameStays(file);
    NameIsPlain(name, file);
    EndNamesNoOther(info, file);
    TrimKeepsEnd(info, file);
    var front := FrontOf(language + [gap], name);
    LastTokenIs(front, name);
    NameNamesItself(file);
  }
}
