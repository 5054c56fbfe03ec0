/** The reader that turns decoded chunks of a child's output into control-channel lines. */
module LineReader {
  import opened Text

  function StripReturn(line: string): string {
    if line != "" && line[|line| - 1] == '\r' then line[..|line| - 1] else line
  }

  // A terminated line, without its return; empty ones are dropped.
  function Yield(line: string): seq<string> {
    if StripReturn(line) == "" then [] else [StripReturn(line)]
  }

  // What the complete lines of a text yield, and the tail after the last line feed.
  function Complete(text: string): (seq<string>, string)
    decreases |text|
  {
    var nl := IndexOf(text, '\n');
    if nl == |text| then ([], text)
    else
      var (lines, tail) := Complete(text[nl + 1..]);
      (Yield(text[..nl]) + lines, tail)
  }

  function Concat(chunks: seq<string>): string {
    if chunks == [] then "" else Concat(chunks[..|chunks| - 1]) + chunks[|chunks| - 1]
  }

  // The tail is yielded as it is, return included, when the stream ends.
  function AtEnd(text: string): seq<string> {
    var (lines, tail) := Complete(text);
    lines + if tail == "" then [] else [tail]
  }

  // What a part that a line feed ends stands for: no line if it is empty or a bare return, else its
  // characters but for one return at the end.
  function Terminated(part: string): seq<string> {
    if part == "" || part == "\r" then []
    else if part[|part| - 1] != '\r' then [part]
    else [part[..|part| - 1]]
  }

  // Independent of the reader: split at every line feed, all parts but the last being terminated.
  function YieldAll(parts: seq<string>): seq<string>
    requires parts != []
  {
    if |parts| == 1 then if parts[0] == "" then [] else [parts[0]]
    else Terminated(parts[0]) + YieldAll(parts[1..])
  }

  lemma YieldsTerminated(line: string)
    ensures Yield(line) == Terminated(line)
  {
  }

  lemma CompleteStep(line: string, rest: string)
    requires '\n' !in line
    ensures Complete(line + ['\n'] + rest) == (Yield(line) + Complete(rest).0, Complete(rest).1)
  {
    var text := line + ['\n'] + rest;
    IndexOfPrefix(line, '\n', rest);
    assert text[..|line|] == line && text[|line| + 1..] == rest;
  }

  lemma CompleteNone(text: string)
    requires '\n' !in text
    ensures Complete(text) == ([], text)
  {
  }

  // A text with a line feed, taken apart at the first one.
  lemma FirstLine(text: string) returns (line: string, rest: string)
    requires '\n' in text
    ensures text == line + ['\n'] + rest && '\n' !in line && |rest| < |text|
  {
    var nl := IndexOf(text, '\n');
    line, rest := text[..nl], text[nl + 1..];
  }

  /** The lines are those of the whole text split at line feeds. */
  lemma {:induction false} AtEndIsSplit(text: string)
    ensures AtEnd(text) == YieldAll(Split(text, '\n'))
    decreases |text|
  {
    hide Complete, Split;
    if '\n' in text {
      var line, rest := FirstLine(text);
      CompleteStep(line, rest);
      SplitPrefix(line, '\n', rest);
      YieldsTerminated(line);
      AtEndIsSplit(rest);
      var (lines, tail) := Complete(rest);
      var last := if tail == "" then [] else [tail];
      assert (Yield(line) + lines) + last == Yield(line) + (lines + last);
      assert ([line] + Split(rest, '\n'))[1..] == Split(rest, '\n');
    } else {
      SplitWhole(text, '\n');
      CompleteNone(text);
    }
  }

  // Text that arrives later only extends what the tail becomes.
  lemma {:induction false} CompleteAppends(a: string, b: string)
    ensures var (lines, tail) := Complete(a);
      Complete(a + b) == (lines + Complete(tail + b).0, Complete(tail + b).1)
    decreases |a|
  {
    hide Complete;
    if '\n' in a {
      var line, rest := FirstLine(a);
      assert a + b == line + ['\n'] + (rest + b);
      CompleteStep(line, rest);
      CompleteStep(line, rest + b);
      CompleteAppends(rest, b);
      var (lines, tail) := Complete(rest);
      assert (Yield(line) + lines) + Complete(tail + b).0 == Yield(line) + (lines + Complete(tail + b).0);
    } else {
      CompleteNone(a);
      assert [] + Complete(a + b).0 == Complete(a + b).0;
    }
  }

  /** The reader loop. Whatever the chunk boundaries, it yields the lines of the concatenated text. */
  method ReadLines(chunks: seq<string>) returns (lines: seq<string>)
    ensures lines == YieldAll(Split(Concat(chunks), '\n'))
  {
    hide Complete;
    CompleteNone("");
    lines := [];
    var pending := "";
    for i := 0 to |chunks|
      invariant (lines, pending) == Complete(Concat(chunks[..i]))
    {
      ghost var before := Concat(chunks[..i]);
      assert chunks[..i + 1][..i] == chunks[..i];
      pending := pending + chunks[i];
      CompleteAppends(before, chunks[i]);
      ghost var goal := Complete(Concat(chunks[..i + 1]));
      var nl := IndexOf(pending, '\n');
      while nl < |pending|
        invariant nl == IndexOf(pending, '\n')
        invariant goal == (lines + Complete(pending).0, Complete(pending).1)
        decreases |pending|
      {
        ghost var part, rest := pending[..nl], pending[nl + 1..];
        assert pending == part + ['\n'] + rest;
        CompleteStep(part, rest);
        ghost var yielded := lines;
        assert yielded + (Yield(part) + Complete(rest).0) == (yielded + Yield(part)) + Complete(rest).0;
        var line := StripReturn(pending[..nl]);
        pending := pending[nl + 1..];
        if line != "" {
          lines := lines + [line];
        }
        assert lines == yielded + Yield(part);
        nl := IndexOf(pending, '\n');
      }
      CompleteNone(pending);
      assert lines + [] == lines;
    }
    assert chunks[..|chunks|] == chunks;
    if pending != "" {
      lines := lines + [pending];
    }
    AtEndIsSplit(Concat(chunks));
  }

  /** What has been yielded when a chunk has been read is never taken back. */
  lemma YieldedIsPrefix(read: string, later: string)
    ensures Complete(read).0 <= Complete(read + later).0 && Complete(read).0 <= AtEnd(read + later)
  {
    CompleteAppends(read, later);
  }
}
