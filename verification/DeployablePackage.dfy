/** The two contract files a message body carries in fenced blocks, and the body without those blocks. */
module DeployablePackage {
  import opened Options
  import opened Text

  datatype File = Manifest | Definition

  const FENCE: string := "```"

  // A comment marker at the start, and the space after it.
  function DropComment(s: string): string {
    if "//" <= s then TrimStart(s[2..])
    else if "#" <= s then TrimStart(s[1..])
    else s
  }

  function DropTicksStart(s: string): string {
    if s != "" && s[0] == '`' then DropTicksStart(s[1..]) else s
  }

  function DropTicksEnd(s: string): string {
    if s != "" && s[|s| - 1] == '`' then DropTicksEnd(s[..|s| - 1]) else s
  }

  function DropColon(s: string): string {
    if s != "" && s[|s| - 1] == ':' then s[..|s| - 1] else s
  }

  // The contract file a text names; only the last segment of a path counts.
  function NamedFile(text: string): Option<File> {
    var stripped := Trim(DropColon(DropTicksEnd(DropTicksStart(DropComment(Trim(text))))));
    var segments := Split(stripped, '/');
    var base := Lower(segments[|segments| - 1]);
    if base == "package.json" then Some(Manifest)
    else if base == "definition.json" then Some(Definition)
    else None
  }

  function LastToken(s: string): string {
    if s == "" || IsSpace(s[|s| - 1]) then "" else LastToken(s[..|s| - 1]) + [s[|s| - 1]]
  }

  function NamedFileFromInfo(info: string): Option<File> {
    var direct := NamedFile(info);
    if direct.Some? then direct else NamedFile(LastToken(Trim(info)))
  }

  predicate IsLineEnd(c: char) {
    var code := c as int;
    code == 10 || code == 13 || code == 0x2028 || code == 0x2029
  }

  // The info string of a line that opens a fence.
  function Info(line: string): Option<string> {
    var trimmed := Trim(line);
    if FENCE <= trimmed && forall c | c in trimmed :: !IsLineEnd(c) then Some(trimmed[3..]) else None
  }

  predicate Closes(line: string) {
    Trim(line) == FENCE
  }

  // The first closing line at or after an index, or the end.
  function Closing(lines: seq<string>, index: nat): (close: nat)
    requires index <= |lines|
    ensures index <= close <= |lines| && (close < |lines| ==> Closes(lines[close]))
    ensures forall i | index <= i < close :: !Closes(lines[i])
    decreases |lines| - index
  {
    if index == |lines| || Closes(lines[index]) then index else Closing(lines, index + 1)
  }

  function FirstContent(content: seq<string>): (i: nat)
    ensures i <= |content|
  {
    if content == [] || Trim(content[0]) != "" then 0 else 1 + FirstContent(content[1..])
  }

  // A named block: its content, the line it starts at (a label line above included), the line past it.
  datatype Block = Block(file: File, content: seq<string>, start: nat, end: nat)

  function EndOf(lines: seq<string>, fence: nat): (end: nat)
    requires fence < |lines|
    ensures fence < end <= |lines|
  {
    var close := Closing(lines, fence + 1);
    if close < |lines| then close + 1 else close
  }

  // The block opened at a line, if something names it: info string, line above, first line, in this order.
  function BlockAt(lines: seq<string>, fence: nat): Option<Block>
    requires fence < |lines| && Info(lines[fence]).Some?
  {
    var content, end := lines[fence + 1..Closing(lines, fence + 1)], EndOf(lines, fence);
    var named := NamedFileFromInfo(Info(lines[fence]).value);
    if named.Some? then Some(Block(named.value, content, fence, end))
    else if fence > 0 && NamedFile(lines[fence - 1]).Some? then
      Some(Block(NamedFile(lines[fence - 1]).value, content, fence - 1, end))
    else
      var first := FirstContent(content);
      if first < |content| && NamedFile(content[first]).Some? then
        Some(Block(NamedFile(content[first]).value, content[first + 1..], fence, end))
      else None
  }

  function Found(block: Option<Block>): seq<Block> {
    if block.Some? then [block.value] else []
  }

  // The named blocks of the lines from an index on.
  function Blocks(lines: seq<string>, index: nat): seq<Block>
    requires index <= |lines|
    decreases |lines| - index
  {
    if index == |lines| then []
    else if Info(lines[index]).None? then Blocks(lines, index + 1)
    else Found(BlockAt(lines, index)) + Blocks(lines, EndOf(lines, index))
  }

  function FirstOf(blocks: seq<Block>, file: File): Option<Block> {
    if blocks == [] then None
    else if blocks[0].file == file then Some(blocks[0])
    else FirstOf(blocks[1..], file)
  }

  // Reads the fence opened at a line, and the index past it.
  method ReadFence(lines: seq<string>, fence: nat) returns (block: Option<Block>, next: nat)
    requires fence < |lines| && Info(lines[fence]).Some?
    ensures block == BlockAt(lines, fence) && next == EndOf(lines, fence)
  {
    hide NamedFile, NamedFileFromInfo, Info, Closes;
    var name := NamedFileFromInfo(Info(lines[fence]).value);
    var start := fence;
    if name.None? && fence > 0 {
      name := NamedFile(lines[fence - 1]);
      if name.Some? {
        start := fence - 1;
      }
    }
    var content: seq<string> := [];
    next := fence + 1;
    while next < |lines| && !Closes(lines[next])
      invariant fence < next <= |lines| && content == lines[fence + 1..next]
      invariant Closing(lines, next) == Closing(lines, fence + 1)
    {
      content := content + [lines[next]];
      next := next + 1;
    }
    next := if next + 1 < |lines| then next + 1 else |lines|;
    if name.None? {
      var first := FirstContent(content);
      if first < |content| && NamedFile(content[first]).Some? {
        name := NamedFile(content[first]);
        content := content[first + 1..];
      }
    }
    block := if name.Some? then Some(Block(name.value, content, start, next)) else None;
  }

  // The first block of each file, by one pass over the lines.
  method FindNamedFencedBlocks(lines: seq<string>) returns (found: map<File, Block>)
    ensures forall file :: FirstOf(Blocks(lines, 0), file) == if file in found then Some(found[file]) else None
  {
    hide Info, BlockAt, EndOf;
    found := map[];
    var index := 0;
    while index < |lines|
      invariant index <= |lines|
      invariant forall file :: FirstOf(Blocks(lines, 0), file) ==
                               if file in found then Some(found[file]) else FirstOf(Blocks(lines, index), file)
    {
      if Info(lines[index]).None? {
        index := index + 1;
      } else {
        ghost var blocks := Blocks(lines, index);
        var block, next := ReadFence(lines, index);
        index := next;
        ghost var rest := Blocks(lines, next);
        assert blocks == Found(block) + rest;
        if block.Some? {
          assert blocks[0] == block.value && blocks[1..] == rest;
          if block.value.file !in found {
            found := found[block.value.file := block.value];
          }
        } else {
          assert blocks == rest;
        }
      }
    }
  }

  lemma ClosingNeverNames(line: string)
    requires Closes(line)
    ensures NamedFile(line).None?
  {
  }

  ghost predicate InOrder(blocks: seq<Block>, from: nat, to: nat) {
    && (forall i | 0 <= i < |blocks| :: from <= blocks[i].start < blocks[i].end <= to)
    && (forall i, j | 0 <= i < j < |blocks| :: blocks[i].end <= blocks[j].start)
  }

  // `last` is where the last fence ended; the line before it is then no label.
  lemma BlockIsAfter(lines: seq<string>, last: nat, fence: nat)
    requires last <= fence < |lines| && Info(lines[fence]).Some?
    requires last > 0 ==> Closes(lines[last - 1])
    ensures InOrder(Found(BlockAt(lines, fence)), last, EndOf(lines, fence))
  {
    hide NamedFileFromInfo, NamedFile, Info, Closes, Closing, FirstContent;
    if last > 0 {
      ClosingNeverNames(lines[last - 1]);
    }
    assert fence < EndOf(lines, fence);
  }

  lemma NoBlocksInOrder(from: nat, to: nat)
    ensures InOrder([], from, to)
  {
  }

  lemma InOrderConcat(a: seq<Block>, b: seq<Block>, from: nat, mid: nat, to: nat)
    requires InOrder(a, from, mid) && InOrder(b, mid, to) && from <= mid <= to
    ensures InOrder(a + b, from, to)
  {
  }

  lemma {:induction false} BlocksFrom(lines: seq<string>, last: nat, index: nat)
    requires last <= index <= |lines|
    requires 0 < last < |lines| ==> Closes(lines[last - 1])
    ensures InOrder(Blocks(lines, index), last, |lines|)
    decreases |lines| - index
  {
    hide Info, Closes, BlockAt, InOrder;
    if index == |lines| {
      NoBlocksInOrder(last, |lines|);
    } else if Info(lines[index]).None? {
      BlocksFrom(lines, last, index + 1);
    } else {
      var end := EndOf(lines, index);
      BlockIsAfter(lines, last, index);
      BlocksFrom(lines, end, end);
      InOrderConcat(Found(BlockAt(lines, index)), Blocks(lines, end), last, end, |lines|);
    }
  }

  /** The ranges of the blocks are in bounds, in order and pairwise disjoint, label lines included. */
  lemma BlocksAreDisjoint(lines: seq<string>)
    ensures InOrder(Blocks(lines, 0), 0, |lines|)
  {
    BlocksFrom(lines, 0, 0);
  }

  // Independent of the scan: is the line inside a fence, by a two-state reading of the lines above it?
  predicate Inside(lines: seq<string>, i: nat)
    requires i <= |lines|
  {
    i > 0 && if Inside(lines, i - 1) then !Closes(lines[i - 1]) else Info(lines[i - 1]).Some?
  }

  predicate Opens(lines: seq<string>, i: nat)
    requires i < |lines|
  {
    !Inside(lines, i) && Info(lines[i]).Some?
  }

  lemma {:induction false} InsideUntilClosed(lines: seq<string>, fence: nat, i: nat)
    requires fence < |lines| && Opens(lines, fence) && fence < i <= Closing(lines, fence + 1)
    ensures Inside(lines, i)
  {
    hide Info, Closes;
    if i > fence + 1 {
      InsideUntilClosed(lines, fence, i - 1);
    }
  }

  lemma {:induction false} BlocksAreOpenedFrom(lines: seq<string>, index: nat, block: Block)
    requires index <= |lines| && (index < |lines| ==> !Inside(lines, index))
    ensures block in Blocks(lines, index) <==>
            exists fence :: index <= fence < |lines| && Opens(lines, fence) && BlockAt(lines, fence) == Some(block)
    decreases |lines| - index
  {
    hide Info, Closes, BlockAt;
    if index < |lines| {
      if Info(lines[index]).None? {
        BlocksAreOpenedFrom(lines, index + 1, block);
      } else {
        var close, end := Closing(lines, index + 1), EndOf(lines, index);
        assert Opens(lines, index);
        forall i | index < i <= close ensures Inside(lines, i) {
          InsideUntilClosed(lines, index, i);
        }
        BlocksAreOpenedFrom(lines, end, block);
      }
    }
  }

  /** The named blocks are those opened outside of every other fence, and no others. */
  lemma BlocksAreOpened(lines: seq<string>, block: Block)
    ensures block in Blocks(lines, 0) <==>
            exists fence :: 0 <= fence < |lines| && Opens(lines, fence) && BlockAt(lines, fence) == Some(block)
  {
    BlocksAreOpenedFrom(lines, 0, block);
  }

  lemma {:induction false} FirstOfIsFirst(blocks: seq<Block>, file: File)
    ensures match FirstOf(blocks, file)
            case None => forall b | b in blocks :: b.file != file
            case Some(block) => exists i :: 0 <= i < |blocks| && blocks[i] == block && block.file == file &&
                                            forall j | 0 <= j < i :: blocks[j].file != file
  {
    if blocks != [] && blocks[0].file != file {
      FirstOfIsFirst(blocks[1..], file);
      match FirstOf(blocks[1..], file)
      case None =>
      case Some(block) =>
        var i :| 0 <= i < |blocks| - 1 && blocks[1..][i] == block &&
                 forall j | 0 <= j < i :: blocks[1..][j].file != file;
        assert blocks[i + 1] == block;
        forall j | 0 <= j < i + 1 ensures blocks[j].file != file {
          assert j > 0 ==> blocks[j] == blocks[1..][j - 1];
        }
    }
  }

  // The two blocks of a package never overlap.
  lemma PackageBlocksAreDisjoint(lines: seq<string>)
    ensures var m, d := FirstOf(Blocks(lines, 0), Manifest), FirstOf(Blocks(lines, 0), Definition);
      m.Some? && d.Some? ==>
        && m.value.start < m.value.end <= |lines| && d.value.start < d.value.end <= |lines|
        && (m.value.end <= d.value.start || d.value.end <= m.value.start)
  {
    BlocksAreDisjoint(lines);
    FirstOfIsFirst(Blocks(lines, 0), Manifest);
    FirstOfIsFirst(Blocks(lines, 0), Definition);
  }

  predicate Covers(block: Block, i: nat) {
    block.start <= i < block.end
  }

  // The lines from an index on that neither block covers.
  function Outside(lines: seq<string>, a: Block, b: Block, index: nat): seq<string>
    requires index <= |lines|
    decreases |lines| - index
  {
    if index == |lines| then []
    else (if Covers(a, index) || Covers(b, index) then [] else [lines[index]]) + Outside(lines, a, b, index + 1)
  }

  lemma {:induction false} OutsideKeeps(lines: seq<string>, a: Block, b: Block, from: nat, to: nat)
    requires from <= to <= |lines| && forall i | from <= i < to :: !Covers(a, i) && !Covers(b, i)
    ensures Outside(lines, a, b, from) == lines[from..to] + Outside(lines, a, b, to)
    decreases |lines| - from
  {
    if from < to {
      OutsideKeeps(lines, a, b, from + 1, to);
      assert lines[from..to] == [lines[from]] + lines[from + 1..to];
    } else {
      assert lines[from..to] == [];
    }
  }

  lemma {:induction false} OutsideDrops(lines: seq<string>, a: Block, b: Block, from: nat, to: nat)
    requires from <= to <= |lines| && forall i | from <= i < to :: Covers(a, i) || Covers(b, i)
    ensures Outside(lines, a, b, from) == Outside(lines, a, b, to)
    decreases |lines| - from
  {
    if from < to {
      OutsideDrops(lines, a, b, from + 1, to);
      assert [] + Outside(lines, a, b, from + 1) == Outside(lines, a, b, from + 1);
    }
  }

  lemma OutsideEnds(lines: seq<string>, a: Block, b: Block)
    ensures Outside(lines, a, b, |lines|) == []
  {
  }

  // Two disjoint ranges cut the lines in five.
  lemma OutsideIsThreeSlices(lines: seq<string>, a: Block, b: Block)
    requires a.start < a.end <= b.start < b.end <= |lines|
    ensures Outside(lines, a, b, 0) == lines[..a.start] + lines[a.end..b.start] + lines[b.end..]
    ensures Outside(lines, b, a, 0) == Outside(lines, a, b, 0)
  {
    hide Outside;
    OutsideIsSymmetric(lines, a, b, 0);
    OutsideKeeps(lines, a, b, 0, a.start);
    OutsideDrops(lines, a, b, a.start, a.end);
    OutsideKeeps(lines, a, b, a.end, b.start);
    OutsideDrops(lines, a, b, b.start, b.end);
    OutsideKeeps(lines, a, b, b.end, |lines|);
    OutsideEnds(lines, a, b);
    assert lines[0..a.start] == lines[..a.start] && lines[b.end..|lines|] + [] == lines[b.end..];
    assert lines[..a.start] + (lines[a.end..b.start] + lines[b.end..]) ==
           lines[..a.start] + lines[a.end..b.start] + lines[b.end..];
  }

  lemma {:induction false} OutsideIsSymmetric(lines: seq<string>, a: Block, b: Block, index: nat)
    requires index <= |lines|
    ensures Outside(lines, a, b, index) == Outside(lines, b, a, index)
    decreases |lines| - index
  {
    if index < |lines| {
      OutsideIsSymmetric(lines, a, b, index + 1);
    }
  }

  function Newlines(s: string): (n: nat)
    ensures n <= |s| && (forall i | 0 <= i < n :: s[i] == '\n') && (n < |s| ==> s[n] != '\n')
  {
    if s == "" || s[0] != '\n' then 0 else 1 + Newlines(s[1..])
  }

  // Three line feeds or more become two.
  function Collapse(s: string): string
    decreases |s|
  {
    if s == "" then ""
    else if s[0] != '\n' then [s[0]] + Collapse(s[1..])
    else
      var n := Newlines(s);
      (if n >= 3 then "\n\n" else s[..n]) + Collapse(s[n..])
  }

  function Tidy(lines: seq<string>): string {
    Trim(Collapse(Join(lines, "\n")))
  }

  // The package of a body and the body without it; `parse` reads the two texts, with its own failures inside P.
  method PackageFromBody<P>(parse: (string, string) -> P, body: string) returns (result: Option<(P, string)>)
    ensures var lines := Split(body, '\n');
      var m, d := FirstOf(Blocks(lines, 0), Manifest), FirstOf(Blocks(lines, 0), Definition);
      result ==
      if m.None? || d.None? then None
      else
        Some((parse(Join(m.value.content, "\n"), Join(d.value.content, "\n")),
              Tidy(Outside(lines, m.value, d.value, 0))))
  {
    var lines := Split(body, '\n');
    var blocks := FindNamedFencedBlocks(lines);
    if Manifest !in blocks || Definition !in blocks {
      return None;
    }
    var m, d := blocks[Manifest], blocks[Definition];
    assert FirstOf(Blocks(lines, 0), Manifest) == Some(m) && FirstOf(Blocks(lines, 0), Definition) == Some(d);
    hide Blocks, FirstOf, Tidy, Split;
    PackageBlocksAreDisjoint(lines);
    var outcome := parse(Join(m.content, "\n"), Join(d.content, "\n"));
    var ranges := if d.start < m.start then [d, m] else [m, d];
    OutsideIsThreeSlices(lines, ranges[0], ranges[1]);
    var kept: seq<string> := [];
    var cursor := 0;
    for i := 0 to 2
      invariant cursor == if i == 0 then 0 else ranges[i - 1].end
      invariant kept == if i == 0 then [] else if i == 1 then lines[..ranges[0].start]
                        else lines[..ranges[0].start] + lines[ranges[0].end..ranges[1].start]
    {
      kept := kept + lines[cursor..ranges[i].start];
      cursor := ranges[i].end;
    }
    kept := kept + lines[cursor..];
    result := Some((outcome, Tidy(kept)));
  }

  // The characters that are not white space.
  function Visible(s: string): string {
    if s == "" then "" else (if IsSpace(s[0]) then "" else [s[0]]) + Visible(s[1..])
  }

  function VisibleLines(lines: seq<string>): string {
    if lines == [] then "" else Visible(lines[0]) + VisibleLines(lines[1..])
  }

  lemma {:induction false} VisibleConcat(a: string, b: string)
    ensures Visible(a + b) == Visible(a) + Visible(b)
  {
    if a == "" {
      assert a + b == b;
    } else {
      assert (a + b)[0] == a[0] && (a + b)[1..] == a[1..] + b;
      VisibleConcat(a[1..], b);
    }
  }

  lemma {:induction false} SpaceIsInvisible(s: string)
    requires forall c | c in s :: IsSpace(c)
    ensures Visible(s) == ""
  {
    if s != "" {
      SpaceIsInvisible(s[1..]);
    }
  }

  lemma {:induction false} VisibleTrim(s: string)
    ensures Visible(TrimStart(s)) == Visible(s) && Visible(TrimEnd(s)) == Visible(s)
  {
    if s != "" {
      if IsSpace(s[0]) {
        VisibleTrim(s[1..]);
      }
      var init, last := s[..|s| - 1], s[|s| - 1];
      if IsSpace(last) {
        assert s == init + [last];
        VisibleConcat(init, [last]);
        SpaceIsInvisible([last]);
        VisibleTrim(init);
      }
    }
  }

  lemma {:induction false} VisibleCollapse(s: string)
    ensures Visible(Collapse(s)) == Visible(s)
    decreases |s|
  {
    if s != "" {
      var n := Newlines(s);
      var run := if s[0] != '\n' then [s[0]] else if n >= 3 then "\n\n" else s[..n];
      var k := if s[0] != '\n' then 1 else n;
      assert s == s[..k] + s[k..];
      VisibleConcat(s[..k], s[k..]);
      VisibleConcat(run, Collapse(s[k..]));
      VisibleCollapse(s[k..]);
      if s[0] == '\n' {
        SpaceIsInvisible(s[..k]);
        SpaceIsInvisible(run);
      }
    }
  }

  lemma {:induction false} VisibleJoin(lines: seq<string>)
    ensures Visible(Join(lines, "\n")) == VisibleLines(lines)
  {
    if |lines| == 1 {
      assert Visible(lines[0]) + "" == Visible(lines[0]);
    } else if lines != [] {
      var rest := Join(lines[1..], "\n");
      VisibleConcat(lines[0] + "\n", rest);
      VisibleConcat(lines[0], "\n");
      SpaceIsInvisible("\n");
      VisibleJoin(lines[1..]);
    }
  }

  /** Tidying the kept lines changes nothing but white space. */
  lemma TidyKeepsText(lines: seq<string>)
    ensures Visible(Tidy(lines)) == VisibleLines(lines)
  {
    var joined := Join(lines, "\n");
    VisibleJoin(lines);
    VisibleCollapse(joined);
    VisibleTrim(Collapse(joined));
    VisibleTrim(TrimStart(Collapse(joined)));
  }

  ghost predicate TripleAt(s: string, i: nat) {
    i + 2 < |s| && s[i] == s[i + 1] == s[i + 2] == '\n'
  }

  ghost predicate NoTriple(s: string) {
    forall i: nat :: !TripleAt(s, i)
  }

  lemma CollapseStart(s: string)
    ensures s == "" ==> Collapse(s) == ""
    ensures s != "" && s[0] != '\n' ==> Collapse(s) != "" && Collapse(s)[0] == s[0]
  {
  }

  // A run of at most two line feeds, or any other character, before a text that goes on otherwise.
  lemma NoTripleAhead(run: string, rest: string)
    requires NoTriple(rest) && |run| <= 2
    requires rest == "" || rest[0] != '\n' || (|run| == 1 && run[0] != '\n')
    ensures NoTriple(run + rest)
  {
    var s := run + rest;
    forall i: nat ensures !TripleAt(s, i) {
      if i >= |run| {
        assert TripleAt(s, i) ==> TripleAt(rest, i - |run|);
      } else if i + 2 < |s| {
        assert s[|run|] == rest[0] && s[i] == run[i];
      }
    }
  }

  lemma NoTripleTail(s: string, k: nat)
    requires NoTriple(s) && k <= |s|
    ensures NoTriple(s[k..])
  {
    forall i: nat ensures !TripleAt(s[k..], i) {
      assert !TripleAt(s, k + i);
    }
  }

  function LineFeeds(n: nat): string {
    seq(n, i => '\n')
  }

  lemma {:induction false} NewlinesAre(n: nat, b: string)
    requires b != "" ==> b[0] != '\n'
    ensures Newlines(LineFeeds(n) + b) == n
  {
    if n > 0 {
      assert (LineFeeds(n) + b)[1..] == LineFeeds(n - 1) + b;
      NewlinesAre(n - 1, b);
    } else {
      assert LineFeeds(0) + b == b;
    }
  }

  // The first run of line feeds, or the first character.
  function FirstRun(s: string): string
    requires s != ""
  {
    if s[0] == '\n' then s[..Newlines(s)] else s[..1]
  }

  lemma CollapsesFirst(s: string)
    requires s != ""
    ensures var run := FirstRun(s);
      && run != "" && run <= s
      && Collapse(s) == (if |run| > 2 then "\n\n" else run) + Collapse(s[|run|..])
  {
  }

  lemma FeedsCollapse(n: nat, b: string)
    requires b != "" ==> b[0] != '\n'
    ensures Collapse(LineFeeds(n) + b) == LineFeeds(if n > 2 then 2 else n) + Collapse(b)
  {
    var s := LineFeeds(n) + b;
    NewlinesAre(n, b);
    if n > 0 {
      CollapsesFirst(s);
      hide Collapse;
      assert FirstRun(s) == LineFeeds(n) && s[n..] == b && LineFeeds(2) == "\n\n";
    } else {
      assert s == b && LineFeeds(0) + Collapse(b) == Collapse(b);
    }
  }

  /** Whatever stands around it, a run of line feeds becomes two if it has more, and stays as it is otherwise. */
  lemma {:induction false} RunsCollapse(a: string, n: nat, b: string)
    requires (a != "" ==> a[|a| - 1] != '\n') && (b != "" ==> b[0] != '\n')
    ensures Collapse(a + LineFeeds(n) + b) == Collapse(a) + LineFeeds(if n > 2 then 2 else n) + Collapse(b)
    decreases |a|
  {
    hide Collapse, FirstRun, LineFeeds;
    if a == "" {
      FeedsCollapse(n, b);
      NothingCollapses(LineFeeds(n) + b);
      assert a + LineFeeds(n) + b == LineFeeds(n) + b;
    } else {
      var more := LineFeeds(n) + b;
      SameFirstRun(a, more);
      CollapsesFirst(a);
      CollapsesFirst(a + more);
      var run := FirstRun(a);
      var rest := a[|run|..];
      assert rest != "" ==> rest[|rest| - 1] == a[|a| - 1];
      RunsCollapse(rest, n, b);
      assert (a + more)[|run|..] == rest + more;
      assert rest + LineFeeds(n) + b == rest + more && a + LineFeeds(n) + b == a + more;
    }
  }

  lemma NothingCollapses(rest: string)
    ensures Collapse("") == "" && "" + rest == rest
  {
  }

  lemma SameFirstRun(a: string, rest: string)
    requires a != "" && a[|a| - 1] != '\n'
    ensures FirstRun(a + rest) == FirstRun(a)
  {
    assert (a + rest)[0] == a[0];
    if a[0] == '\n' {
      NewlinesOfStart(a, rest);
    }
  }

  lemma {:induction false} NewlinesOfStart(a: string, rest: string)
    requires a != "" && a[|a| - 1] != '\n'
    ensures Newlines(a + rest) == Newlines(a) < |a|
  {
    if a[0] == '\n' {
      assert (a + rest)[1..] == a[1..] + rest;
      NewlinesOfStart(a[1..], rest);
    }
  }

  /** Collapsing leaves no three line feeds in a row, and a text without any as it is. */
  lemma {:induction false} CollapseIs(s: string)
    ensures NoTriple(Collapse(s)) && (NoTriple(s) ==> Collapse(s) == s)
    decreases |s|
  {
    hide NoTriple;
    if s == "" {
      NoTripleNone();
    } else {
      var n := Newlines(s);
      var k := if s[0] != '\n' then 1 else n;
      var run := if s[0] == '\n' && n >= 3 then "\n\n" else s[..k];
      assert s == s[..k] + s[k..];
      CollapseIs(s[k..]);
      CollapseStart(s[k..]);
      NoTripleAhead(run, Collapse(s[k..]));
      assert Collapse(s) == run + Collapse(s[k..]);
      if NoTriple(s) {
        NoTripleTail(s, k);
        FewNewlines(s);
      }
    }
  }

  lemma NoTripleNone()
    ensures NoTriple("")
  {
  }

  lemma FewNewlines(s: string)
    requires NoTriple(s)
    ensures Newlines(s) <= 2
  {
    assert Newlines(s) >= 3 ==> TripleAt(s, 0);
  }
}
