/** A package written into a message body is read back, in each of the ways a fence can be named. */
module PackageReadBack {
  import opened Options
  import opened Text
  import opened DeployablePackage
  import opened PackageNames

  // How a fence is named: by its info string, by the line above it, or by its first line that is not blank.
  datatype Style =
    | ByInfo(info: string)
    | ByLabel(mark: string, info: string)
    | ByFirstLine(info: string, blanks: seq<string>, mark: string)

  // The lines up to the content.
  function Opening(style: Style): seq<string> {
    match style
    case ByInfo(info) => [FENCE + info]
    case ByLabel(mark, info) => [mark, FENCE + info]
    case ByFirstLine(info, blanks, mark) => [FENCE + info] + blanks + [mark]
  }

  function Fenced(style: Style, content: seq<string>): seq<string> {
    Opening(style) + content + [FENCE]
  }

  // An info string that stands on its line as it is.
  ghost predicate IsInfo(info: string) {
    Info(FENCE + info) == Some(info)
  }

  ghost predicate NamesFile(style: Style, file: File) {
    match style
    case ByInfo(info) => IsInfo(info) && NamedFileFromInfo(info) == Some(file)
    case ByLabel(mark, info) =>
      && IsInfo(info) && NamedFileFromInfo(info).None?
      && Info(mark).None? && NamedFile(mark) == Some(file)
    case ByFirstLine(info, blanks, mark) =>
      && IsInfo(info) && NamedFileFromInfo(info).None? && NamedFile(mark) == Some(file)
      && forall i | 0 <= i < |blanks| :: Trim(blanks[i]) == ""
  }

  // The lines before a fence open none, and the last is no label for one that its first line names.
  ghost predicate Apart(before: seq<string>, style: Style) {
    && (forall line | line in before :: Info(line).None?)
    && (style.ByFirstLine? && before != [] ==> NamedFile(before[|before| - 1]).None?)
  }

  ghost predicate Unclosed(content: seq<string>) {
    forall i | 0 <= i < |content| :: !Closes(content[i])
  }

  /** A line opens a fence exactly when, but for white space around it, it starts with three backticks and no
      other line terminator of ECMAScript is inside; the info string is what follows the backticks. */
  lemma InfoIs(line: string, info: string)
    ensures Info(line) == Some(info) <==>
            && Trim(line) == FENCE + info && '\n' !in info && '\r' !in info
            && '\U{2028}' !in info && '\U{2029}' !in info
  {
    hide Trim;
    var t := Trim(line);
    if t == FENCE + info {
      assert t[..3] == FENCE && t[3..] == info;
      forall c | c in t ensures c == '`' || c in info {
        var i :| 0 <= i < |t| && t[i] == c;
        assert i >= 3 ==> info[i - 3] == c;
      }
      assert forall c | c in info :: c in t;
    } else if FENCE <= t {
      assert t == FENCE + t[3..];
    }
  }

  // An info string without line ends that is blank at neither end, which `ByInfo` and the others take.
  lemma InfoStands(info: string)
    requires info == "" || !IsSpace(info[|info| - 1])
    requires forall c | c in info :: !IsLineEnd(c)
    ensures IsInfo(info)
  {
    var line := FENCE + info;
    assert !IsSpace(line[0]) && !IsSpace(line[|line| - 1]);
    NoSpaceAround(line);
    assert line[3..] == info;
  }

  /** A language before the name is one way to name a fence by its info string. */
  lemma LanguageNames(language: string, gap: char, file: File)
    requires IsSpace(gap) && !IsLineEnd(gap) && forall c | c in language :: !IsLineEnd(c)
    ensures NamesFile(ByInfo(language + [gap] + NameOf(file)), file)
  {
    var info := language + [gap] + NameOf(file);
    LowerNameStays(file);
    NameIsPlain(NameOf(file), file);
    assert info[|info| - 1] == NameOf(file)[|NameOf(file)| - 1];
    InfoNamesLastToken(language, gap, file);
    InfoStands(info);
  }

  lemma FenceCloses()
    ensures Closes(FENCE) && Trim(FENCE) == FENCE
  {
    NoSpaceAround(FENCE);
  }

  lemma BlankNamesNothing(text: string)
    requires Trim(text) == ""
    ensures NamedFile(text).None? && !Closes(text)
  {
    SplitWhole("", '/');
  }

  lemma {:induction false} ClosingIs(lines: seq<string>, index: nat, close: nat)
    requires index <= close < |lines| && Closes(lines[close]) && forall i | index <= i < close :: !Closes(lines[i])
    ensures Closing(lines, index) == close
    decreases close - index
  {
  }

  lemma {:induction false} BlocksSkip(lines: seq<string>, from: nat, to: nat)
    requires from <= to <= |lines| && forall i | from <= i < to :: Info(lines[i]).None?
    ensures Blocks(lines, from) == Blocks(lines, to)
    decreases |lines| - from
  {
    hide Info, BlockAt, EndOf;
    if from < to {
      BlocksSkip(lines, from + 1, to);
    }
  }

  lemma {:induction false} FirstContentIs(blanks: seq<string>, mark: string, content: seq<string>)
    requires Trim(mark) != "" && forall i | 0 <= i < |blanks| :: Trim(blanks[i]) == ""
    ensures FirstContent(blanks + [mark] + content) == |blanks|
  {
    var lines := blanks + [mark] + content;
    if blanks != [] {
      assert lines[0] == blanks[0] && lines[1..] == blanks[1..] + [mark] + content;
      FirstContentIs(blanks[1..], mark, content);
    } else {
      assert lines[0] == mark;
    }
  }

  // What is inside the fence, the lines that name it included.
  function Inside(style: Style, content: seq<string>): seq<string> {
    match style
    case ByFirstLine(_, blanks, mark) => blanks + [mark] + content
    case _ => content
  }

  lemma NamingStaysOpen(mark: string, file: File)
    requires NamedFile(mark) == Some(file)
    ensures !Closes(mark) && Trim(mark) != ""
  {
    hide NamedFile, Closes;
    if Closes(mark) {
      ClosingNeverNames(mark);
    }
    if Trim(mark) == "" {
      BlankNamesNothing(mark);
    }
  }

  lemma InsideStaysOpen(style: Style, file: File, content: seq<string>)
    requires NamesFile(style, file) && Unclosed(content)
    ensures Unclosed(Inside(style, content))
  {
    hide NamedFile, NamedFileFromInfo, Closes, Info, Trim;
    if style.ByFirstLine? {
      var n, inside := |style.blanks|, Inside(style, content);
      NamingStaysOpen(style.mark, file);
      forall i | 0 <= i < |inside| ensures !Closes(inside[i]) {
        if i < n {
          assert inside[i] == style.blanks[i];
          BlankNamesNothing(style.blanks[i]);
        } else if i > n {
          assert inside[i] == content[i - n - 1];
        }
      }
    }
  }

  // The fence of a written block, whose line above, unless it is the label, names nothing.
  lemma FenceEnds(lines: seq<string>, fence: nat, info: string, inside: seq<string>)
    requires IsInfo(info) && Unclosed(inside) && fence + |inside| + 2 <= |lines|
    requires lines[fence..fence + |inside| + 2] == [FENCE + info] + inside + [FENCE]
    ensures Info(lines[fence]) == Some(info) && EndOf(lines, fence) == fence + |inside| + 2
    ensures lines[fence + 1..Closing(lines, fence + 1)] == inside
  {
    hide Info, Closes;
    FenceCloses();
    var close, part := fence + |inside| + 1, [FENCE + info] + inside + [FENCE];
    assert lines[fence] == part[0] && lines[close] == part[|inside| + 1];
    forall i | fence < i < close ensures !Closes(lines[i]) && lines[i] == inside[i - fence - 1] {
      assert lines[i] == part[i - fence] == inside[i - fence - 1];
    }
    ClosingIs(lines, fence + 1, close);
    assert lines[fence + 1..close] == inside;
  }

  // The fence of a written block is named in its style.
  lemma BlockIsNamed(lines: seq<string>, fence: nat, file: File, style: Style, content: seq<string>)
    requires fence < |lines| && Info(lines[fence]) == Some(style.info) && NamesFile(style, file)
    requires lines[fence + 1..Closing(lines, fence + 1)] == Inside(style, content)
    requires style.ByLabel? ==> fence > 0 && lines[fence - 1] == style.mark
    requires style.ByFirstLine? && fence > 0 ==> NamedFile(lines[fence - 1]).None?
    ensures var start := if style.ByLabel? then fence - 1 else fence;
      BlockAt(lines, fence) == Some(Block(file, content, start, EndOf(lines, fence)))
  {
    hide NamedFile, NamedFileFromInfo, Info, IsInfo, Closes, Closing, EndOf, Trim, FirstContent;
    if style.ByFirstLine? {
      var inside := Inside(style, content);
      NamingStaysOpen(style.mark, file);
      FirstContentIs(style.blanks, style.mark, content);
      assert inside[|style.blanks|] == style.mark && inside[|style.blanks| + 1..] == content;
    }
  }

  // Where the fence of a written block stands, and what is in it.
  lemma FenceStands(lines: seq<string>, start: nat, style: Style, content: seq<string>)
    requires start + |Fenced(style, content)| <= |lines|
    requires lines[start..start + |Fenced(style, content)|] == Fenced(style, content)
    ensures var fence := if style.ByLabel? then start + 1 else start;
      var inside := Inside(style, content);
      && fence + |inside| + 2 == start + |Fenced(style, content)|
      && lines[fence..fence + |inside| + 2] == [FENCE + style.info] + inside + [FENCE]
      && (style.ByLabel? ==> lines[start] == style.mark)
  {
    var part, inside := Fenced(style, content), Inside(style, content);
    var at := if style.ByLabel? then 1 else 0;
    assert part[at..] == [FENCE + style.info] + inside + [FENCE];
    assert lines[start + at..start + |part|] == lines[start..start + |part|][at..];
    assert style.ByLabel? ==> lines[start] == lines[start..start + |part|][0] == part[0];
  }

  lemma BlockReadsBack(lines: seq<string>, start: nat, file: File, style: Style, content: seq<string>)
    requires NamesFile(style, file) && Unclosed(content)
    requires start + |Fenced(style, content)| <= |lines|
    requires lines[start..start + |Fenced(style, content)|] == Fenced(style, content)
    requires style.ByFirstLine? && start > 0 ==> NamedFile(lines[start - 1]).None?
    ensures var fence := if style.ByLabel? then start + 1 else start;
      var end := start + |Fenced(style, content)|;
      && fence < |lines| && Info(lines[fence]).Some? && EndOf(lines, fence) == end
      && BlockAt(lines, fence) == Some(Block(file, content, start, end))
      && (style.ByLabel? ==> Info(lines[start]).None?)
  {
    hide NamedFile, NamedFileFromInfo, Info, Fenced, Inside, Closing, EndOf, BlockAt, Unclosed;
    FenceStands(lines, start, style, content);
    InsideStaysOpen(style, file, content);
    var fence := if style.ByLabel? then start + 1 else start;
    FenceEnds(lines, fence, style.info, Inside(style, content));
    BlockIsNamed(lines, fence, file, style, content);
  }

  // A written fence, after lines that open none and behind what was read before.
  lemma FencedReadsBack(head: seq<string>, before: seq<string>, file: File, style: Style, content: seq<string>,
                        rest: seq<string>)
    requires Apart(before, style) && NamesFile(style, file) && Unclosed(content)
    requires head == [] || Closes(head[|head| - 1])
    ensures var lines, start := head + before + Fenced(style, content) + rest, |head + before|;
      var end := start + |Fenced(style, content)|;
      && lines[start..end] == Fenced(style, content) && lines[end..] == rest
      && Blocks(lines, |head|) == [Block(file, content, start, end)] + Blocks(lines, end)
  {
    hide NamesFile, Unclosed, Fenced, NamedFile, Info, Closes, BlockAt, EndOf, Apart, Blocks;
    var lines, start := head + before + Fenced(style, content) + rest, |head + before|;
    var end := start + |Fenced(style, content)|;
    assert lines[start..end] == Fenced(style, content) && lines[end..] == rest;
    NothingNamesAbove(head, before, style, lines);
    BlockReadsBack(lines, start, file, style, content);
    var fence := if style.ByLabel? then start + 1 else start;
    NothingOpensAbove(head, before, style, lines);
    BlocksSkip(lines, |head|, fence);
    OpenedFirst(lines, fence);
  }

  lemma OpenedFirst(lines: seq<string>, fence: nat)
    requires fence < |lines| && Info(lines[fence]).Some? && BlockAt(lines, fence).Some?
    ensures Blocks(lines, fence) == [BlockAt(lines, fence).value] + Blocks(lines, EndOf(lines, fence))
  {
    hide Info, BlockAt, EndOf;
  }

  lemma NothingOpensAbove(head: seq<string>, before: seq<string>, style: Style, lines: seq<string>)
    requires Apart(before, style) && head + before <= lines
    ensures forall i | |head| <= i < |head + before| :: Info(lines[i]).None?
  {
    hide Info;
    forall i | |head| <= i < |head + before| ensures Info(lines[i]).None? {
      assert lines[i] == (head + before)[i] == before[i - |head|];
    }
  }

  lemma NothingNamesAbove(head: seq<string>, before: seq<string>, style: Style, lines: seq<string>)
    requires Apart(before, style) && (head == [] || Closes(head[|head| - 1])) && head + before <= lines
    ensures style.ByFirstLine? && |head + before| > 0 ==> NamedFile(lines[|head + before| - 1]).None?
  {
    var above := head + before;
    hide NamedFile, Info, Closes;
    if before == [] && head != [] {
      ClosingNeverNames(head[|head| - 1]);
      assert above[|above| - 1] == head[|head| - 1];
    } else if before != [] {
      assert above[|above| - 1] == before[|before| - 1];
    }
  }

  // A package in a text: the manifest, the definition, and what stands around them.
  function Written(before: seq<string>, m: Style, manifest: seq<string>, between: seq<string>, d: Style,
                   definition: seq<string>, after: seq<string>): seq<string>
  {
    before + Fenced(m, manifest) + between + Fenced(d, definition) + after
  }

  lemma FenceEndsText(before: seq<string>, style: Style, content: seq<string>)
    ensures var head := before + Fenced(style, content); head[|head| - 1] == FENCE
  {
    hide Opening;
  }

  // The two blocks where they stand, ahead of all others.
  lemma BothReadBack(before: seq<string>, m: Style, manifest: seq<string>, between: seq<string>, d: Style,
                     definition: seq<string>, after: seq<string>)
    requires NamesFile(m, Manifest) && NamesFile(d, Definition) && Apart(before, m) && Apart(between, d)
    requires Unclosed(manifest) && Unclosed(definition)
    ensures var lines := Written(before, m, manifest, between, d, definition, after);
      var one := |before| + |Fenced(m, manifest)|;
      var two := one + |between| + |Fenced(d, definition)|;
      && two <= |lines|
      && lines[..|before|] == before && lines[one..one + |between|] == between && lines[two..] == after
      && Blocks(lines, 0) == [Block(Manifest, manifest, |before|, one)] +
                             ([Block(Definition, definition, one + |between|, two)] + Blocks(lines, two))
  {
    hide NamesFile, Apart, Unclosed, Blocks, Closes, Fenced;
    var head := before + Fenced(m, manifest);
    var tail := between + Fenced(d, definition) + after;
    var lines := Written(before, m, manifest, between, d, definition, after);
    assert [] + before + Fenced(m, manifest) + tail == lines;
    assert head + between + Fenced(d, definition) + after == lines;
    assert [] + before == before;
    FencedReadsBack([], before, Manifest, m, manifest, tail);
    FenceCloses();
    FenceEndsText(before, m, manifest);
    FencedReadsBack(head, between, Definition, d, definition, after);
  }

  /** A package written as two fences, each named by its info string, by the line above or by its first line,
      is found whole, wherever it stands in the text, and the rest is kept. */
  lemma PackageReadsBack(before: seq<string>, m: Style, manifest: seq<string>, between: seq<string>, d: Style,
                         definition: seq<string>, after: seq<string>)
    requires NamesFile(m, Manifest) && NamesFile(d, Definition) && Apart(before, m) && Apart(between, d)
    requires Unclosed(manifest) && Unclosed(definition)
    ensures var lines := Written(before, m, manifest, between, d, definition, after);
      var x, y := FirstOf(Blocks(lines, 0), Manifest), FirstOf(Blocks(lines, 0), Definition);
      && x.Some? && y.Some? && x.value.content == manifest && y.value.content == definition
      && Outside(lines, x.value, y.value, 0) == before + between + after
  {
    hide NamesFile, Apart, Unclosed, Blocks, Outside, Fenced, Written, FirstOf;
    BothReadBack(before, m, manifest, between, d, definition, after);
    var lines := Written(before, m, manifest, between, d, definition, after);
    var one := |before| + |Fenced(m, manifest)|;
    var two := one + |between| + |Fenced(d, definition)|;
    var x := Block(Manifest, manifest, |before|, one);
    var y := Block(Definition, definition, one + |between|, two);
    FirstOfBoth(x, y, Blocks(lines, two));
    FencedIsSome(m, manifest);
    FencedIsSome(d, definition);
    OutsideIsThreeSlices(lines, x, y);
  }

  lemma FirstOfBoth(x: Block, y: Block, rest: seq<Block>)
    requires x.file == Manifest && y.file == Definition
    ensures FirstOf([x] + ([y] + rest), Manifest) == Some(x) && FirstOf([x] + ([y] + rest), Definition) == Some(y)
  {
    assert ([x] + ([y] + rest))[1..] == [y] + rest;
  }

  lemma FencedIsSome(style: Style, content: seq<string>)
    ensures |Fenced(style, content)| > 0
  {
  }
}
