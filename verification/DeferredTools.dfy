/**
 * Deferred tools: which definitions a turn sends, how a search surfaces more of them, the cell the
 * director publishes them in, and the search tool that answers from it.
 */
module DeferredTools {
  import opened Options
  import opened Text

  datatype Definition = Definition(name: string, description: string)

  const TOOL_SEARCH_NAME: string := "tool_search"
  const TOOL_SEARCH: Definition := Definition(TOOL_SEARCH_NAME, "Search this agent's other tools by keyword.")

  // Case folding, and what counts as a letter, a digit or an underscore.
  datatype Letters = Letters(lower: string -> string, isToken: char -> bool)

  // Folding leaves white space at either end alone, and white space is no token character.
  ghost predicate KeepsSpaces(letters: Letters) {
    letters.lower("") == "" && forall s, c :: FoldsAround(letters, s, c)
  }

  predicate FoldsAround(letters: Letters, s: string, c: char) {
    IsSpace(c) ==>
      && !letters.isToken(c)
      && letters.lower([c] + s) == [c] + letters.lower(s) && letters.lower(s + [c]) == letters.lower(s) + [c]
  }

  // Runs of token characters; `run` is the one being read.
  function Runs(letters: Letters, s: string, run: string): seq<string> {
    if s == "" then if run == "" then [] else [run]
    else if letters.isToken(s[0]) then Runs(letters, s[1..], run + [s[0]])
    else (if run == "" then [] else [run]) + Runs(letters, s[1..], "")
  }

  function Tokenize(letters: Letters, query: string): seq<string> {
    Runs(letters, letters.lower(query), "")
  }

  predicate Contains(s: string, t: string) {
    t <= s || (s != "" && Contains(s[1..], t))
  }

  predicate Matches(letters: Letters, d: Definition, tokens: seq<string>) {
    forall t | t in tokens :: Contains(letters.lower(d.name + " " + d.description), t)
  }

  function Filter(definitions: seq<Definition>, keep: Definition -> bool): seq<Definition> {
    if definitions == [] then []
    else (if keep(definitions[0]) then [definitions[0]] else []) + Filter(definitions[1..], keep)
  }

  function Matching(letters: Letters, tokens: seq<string>): Definition -> bool {
    (d: Definition) => Matches(letters, d, tokens)
  }

  function SearchDefinitions(letters: Letters, definitions: seq<Definition>, query: string): seq<Definition> {
    var tokens := Tokenize(letters, query);
    if tokens == [] then definitions else Filter(definitions, Matching(letters, tokens))
  }

  // Everything before the first `_` or `.`.
  function Namespace(name: string): string {
    if name == "" || name[0] == '_' || name[0] == '.' then "" else [name[0]] + Namespace(name[1..])
  }

  function Names(definitions: seq<Definition>): set<string> {
    set d | d in definitions :: d.name
  }

  function Namespaces(definitions: seq<Definition>): set<string> {
    set d | d in definitions :: Namespace(d.name)
  }

  // An insertion-ordered set: adding a member again changes nothing.
  function Add(names: seq<string>, name: string): seq<string> {
    if name in names then names else names + [name]
  }

  // Every deferred tool of the given namespaces, in catalogue order, added to the surfaced names.
  function SurfaceAll(deferred: seq<Definition>, namespaces: set<string>, surfaced: seq<string>): seq<string> {
    if deferred == [] then surfaced
    else SurfaceAll(deferred[1..], namespaces,
                    if Namespace(deferred[0].name) in namespaces then Add(surfaced, deferred[0].name) else surfaced)
  }

  function Surface(letters: Letters, deferred: seq<Definition>, query: string, surfaced: seq<string>): seq<string> {
    SurfaceAll(deferred, Namespaces(SearchDefinitions(letters, deferred, query)), surfaced)
  }

  // `Map` construction keeps the last definition of a repeated name.
  function FindLast(definitions: seq<Definition>, name: string): Option<Definition> {
    if definitions == [] then None
    else if definitions[|definitions| - 1].name == name then Some(definitions[|definitions| - 1])
    else FindLast(definitions[..|definitions| - 1], name)
  }

  function Resolve(deferred: seq<Definition>, names: seq<string>): seq<Definition> {
    if names == [] then []
    else
      var found := FindLast(deferred, names[|names| - 1]);
      Resolve(deferred, names[..|names| - 1]) + if found.Some? then [found.value] else []
  }

  // The configured patterns' verdict on a name decides what is deferred.
  function NamedBy(isDeferred: string -> bool): Definition -> bool {
    (d: Definition) => isDeferred(d.name)
  }

  function NotAmong(deferred: set<string>): Definition -> bool {
    (d: Definition) => d.name !in deferred && d.name != TOOL_SEARCH_NAME
  }

  // The fixed block: what is not deferred, then the search tool.
  function Always(definitions: seq<Definition>, deferred: seq<Definition>): seq<Definition> {
    Filter(definitions, NotAmong(Names(deferred))) + [TOOL_SEARCH]
  }

  class DeferredToolSelection {
    const letters: Letters
    const deferred: seq<Definition>
    const always: seq<Definition>
    var surfaced: seq<string>

    constructor (letters: Letters, definitions: seq<Definition>, isDeferred: string -> bool)
      ensures this.letters == letters && deferred == Filter(definitions, NamedBy(isDeferred))
      ensures always == Always(definitions, deferred) && surfaced == []
    {
      this.letters := letters;
      deferred := Filter(definitions, NamedBy(isDeferred));
      always := Always(definitions, Filter(definitions, NamedBy(isDeferred)));
      surfaced := [];
    }

    method SurfaceQuery(query: string)
      modifies this`surfaced
      ensures surfaced == Surface(letters, deferred, query, old(surfaced))
    {
      var namespaces := Namespaces(SearchDefinitions(letters, deferred, query));
      for i := 0 to |deferred|
        invariant SurfaceAll(deferred[i..], namespaces, surfaced) == SurfaceAll(deferred, namespaces, old(surfaced))
      {
        assert deferred[i..][1..] == deferred[i + 1..];
        if Namespace(deferred[i].name) in namespaces {
          surfaced := Add(surfaced, deferred[i].name);
        }
      }
    }

    method Tools() returns (tools: seq<Definition>)
      ensures tools == always + Resolve(deferred, surfaced)
    {
      var found: seq<Definition> := [];
      for i := 0 to |surfaced|
        invariant found == Resolve(deferred, surfaced[..i])
      {
        assert surfaced[..i + 1][..i] == surfaced[..i];
        var definition := FindLast(deferred, surfaced[i]);
        if definition.Some? {
          found := found + [definition.value];
        }
      }
      assert surfaced[..|surfaced|] == surfaced;
      tools := always + found;
    }
  }

  // The one cell the director and the search tool share, made on demand.
  class DeferredCatalog {
    var cell: Option<seq<Definition>>

    constructor ()
      ensures cell == None
    {
      cell := None;
    }

    method Cell() returns (definitions: seq<Definition>)
      modifies this
      ensures definitions == (if old(cell).Some? then old(cell).value else []) && cell == Some(definitions)
    {
      if cell.None? {
        cell := Some([]);
      }
      definitions := cell.value;
    }

    method Publish(definitions: seq<Definition>)
      modifies this
      ensures cell == Some(definitions)
    {
      var _ := Cell();
      cell := Some(definitions);
    }
  }

  // What the cell holds after some directors published, in order: the last one's definitions.
  function Catalog(published: seq<seq<Definition>>): seq<Definition> {
    if published == [] then [] else published[|published| - 1]
  }

  // The search tool's answer: the definitions it lists from the published catalogue.
  function Search(letters: Letters, catalog: seq<Definition>, query: string): seq<Definition> {
    if Trim(query) == "" then catalog else SearchDefinitions(letters, catalog, Trim(query))
  }

  // The surfaced names after the queries of a context, in order.
  function SurfacedAfter(letters: Letters, deferred: seq<Definition>, queries: seq<string>): seq<string> {
    if queries == [] then []
    else Surface(letters, deferred, queries[|queries| - 1], SurfacedAfter(letters, deferred, queries[..|queries| - 1]))
  }

  function ToolsAfter(letters: Letters, definitions: seq<Definition>, deferred: seq<Definition>,
                      queries: seq<string>): seq<Definition>
  {
    Always(definitions, deferred) + Resolve(deferred, SurfacedAfter(letters, deferred, queries))
  }

  lemma {:induction false} SurfaceAllExtends(deferred: seq<Definition>, namespaces: set<string>, surfaced: seq<string>)
    ensures surfaced <= SurfaceAll(deferred, namespaces, surfaced)
  {
    if deferred != [] {
      var next := if Namespace(deferred[0].name) in namespaces then Add(surfaced, deferred[0].name) else surfaced;
      SurfaceAllExtends(deferred[1..], namespaces, next);
    }
  }

  lemma {:induction false} SurfacedGrows(letters: Letters, deferred: seq<Definition>,
                                         earlier: seq<string>, later: seq<string>)
    requires earlier <= later
    ensures SurfacedAfter(letters, deferred, earlier) <= SurfacedAfter(letters, deferred, later)
  {
    if earlier != later {
      var init := later[..|later| - 1];
      SurfacedGrows(letters, deferred, earlier, init);
      var query := later[|later| - 1];
      var found := SearchDefinitions(letters, deferred, query);
      SurfaceAllExtends(deferred, Namespaces(found), SurfacedAfter(letters, deferred, init));
    }
  }

  lemma {:induction false} ResolveGrows(deferred: seq<Definition>, a: seq<string>, b: seq<string>)
    requires a <= b
    ensures Resolve(deferred, a) <= Resolve(deferred, b)
  {
    if a != b {
      ResolveGrows(deferred, a, b[..|b| - 1]);
    }
  }

  /** Surfacing is append-only: the tool list of each turn is a prefix of every later one. */
  lemma EarlierToolsArePrefix(letters: Letters, definitions: seq<Definition>, deferred: seq<Definition>,
                              earlier: seq<string>, later: seq<string>)
    requires earlier <= later
    ensures ToolsAfter(letters, definitions, deferred, earlier) <= ToolsAfter(letters, definitions, deferred, later)
  {
    SurfacedGrows(letters, deferred, earlier, later);
    ResolveGrows(deferred, SurfacedAfter(letters, deferred, earlier), SurfacedAfter(letters, deferred, later));
  }

  lemma {:induction false} SurfaceAllMembers(deferred: seq<Definition>, namespaces: set<string>,
                                             surfaced: seq<string>, name: string)
    ensures name in SurfaceAll(deferred, namespaces, surfaced) <==>
            name in surfaced || (name in Names(deferred) && Namespace(name) in namespaces)
  {
    if deferred != [] {
      var first := deferred[0].name;
      var next := if Namespace(first) in namespaces then Add(surfaced, first) else surfaced;
      SurfaceAllMembers(deferred[1..], namespaces, next, name);
      assert deferred == [deferred[0]] + deferred[1..];
      assert name in Names(deferred) <==> name == first || name in Names(deferred[1..]);
    }
  }

  ghost predicate Distinct(names: seq<string>) {
    forall i, j | 0 <= i < j < |names| :: names[i] != names[j]
  }

  lemma {:induction false} SurfaceAllIsDistinct(deferred: seq<Definition>, namespaces: set<string>,
                                                surfaced: seq<string>)
    requires Distinct(surfaced)
    ensures Distinct(SurfaceAll(deferred, namespaces, surfaced))
  {
    if deferred != [] {
      var next := if Namespace(deferred[0].name) in namespaces then Add(surfaced, deferred[0].name) else surfaced;
      SurfaceAllIsDistinct(deferred[1..], namespaces, next);
    }
  }

  // Two deferred tools, one ahead of the other in the catalogue.
  ghost predicate Ahead(deferred: seq<Definition>, a: string, b: string) {
    exists i, j :: 0 <= i < j < |deferred| && deferred[i].name == a && deferred[j].name == b
  }

  /** What one search adds, it adds in the order of the catalogue. */
  lemma {:induction false} AddedInCatalogueOrder(deferred: seq<Definition>, namespaces: set<string>,
                                                 surfaced: seq<string>, a: nat, b: nat)
    requires |surfaced| <= a < b < |SurfaceAll(deferred, namespaces, surfaced)|
    ensures var all := SurfaceAll(deferred, namespaces, surfaced); Ahead(deferred, all[a], all[b])
  {
    if deferred != [] {
      var first := deferred[0].name;
      var next := if Namespace(first) in namespaces then Add(surfaced, first) else surfaced;
      var all := SurfaceAll(deferred[1..], namespaces, next);
      if |next| <= a {
        AddedInCatalogueOrder(deferred[1..], namespaces, next, a, b);
        var i, j :| 0 <= i < j < |deferred| - 1 && deferred[1..][i].name == all[a] && deferred[1..][j].name == all[b];
        assert deferred[i + 1].name == all[a] && deferred[j + 1].name == all[b];
      } else {
        SurfaceAllExtends(deferred[1..], namespaces, next);
        var j := AddedFromCatalogue(deferred[1..], namespaces, next, b);
        assert all[a] == next[a] == first && deferred[j + 1].name == all[b];
        assert deferred[0].name == all[a];
      }
    }
  }

  lemma {:induction false} AddedFromCatalogue(deferred: seq<Definition>, namespaces: set<string>,
                                              surfaced: seq<string>, b: nat) returns (j: nat)
    requires |surfaced| <= b < |SurfaceAll(deferred, namespaces, surfaced)|
    ensures j < |deferred| && deferred[j].name == SurfaceAll(deferred, namespaces, surfaced)[b]
  {
    j := 0;
    if deferred != [] {
      var next := if Namespace(deferred[0].name) in namespaces then Add(surfaced, deferred[0].name) else surfaced;
      SurfaceAllExtends(deferred[1..], namespaces, next);
      if |next| <= b {
        j := AddedFromCatalogue(deferred[1..], namespaces, next, b);
        j := j + 1;
      }
    }
  }

  /** Surfaced tools are deferred ones, each once, and whole namespaces at a time. */
  lemma {:induction false} SurfacedIsWholeNamespaces(letters: Letters, deferred: seq<Definition>, queries: seq<string>)
    ensures var surfaced := SurfacedAfter(letters, deferred, queries);
      && (forall name | name in surfaced :: name in Names(deferred))
      && Distinct(surfaced)
      && (forall a, b | a in surfaced && b in Names(deferred) && Namespace(a) == Namespace(b) :: b in surfaced)
  {
    if queries != [] {
      var init := queries[..|queries| - 1];
      SurfacedIsWholeNamespaces(letters, deferred, init);
      var before := SurfacedAfter(letters, deferred, init);
      var namespaces := Namespaces(SearchDefinitions(letters, deferred, queries[|queries| - 1]));
      SurfaceAllIsDistinct(deferred, namespaces, before);
      forall name
        ensures name in SurfaceAll(deferred, namespaces, before) <==>
                name in before || (name in Names(deferred) && Namespace(name) in namespaces)
      {
        SurfaceAllMembers(deferred, namespaces, before, name);
      }
    }
  }

  function NameSeq(definitions: seq<Definition>): seq<string> {
    seq(|definitions|, i requires 0 <= i < |definitions| => definitions[i].name)
  }

  lemma {:induction false} FindLastFinds(definitions: seq<Definition>, name: string)
    ensures var found := FindLast(definitions, name);
      if name in Names(definitions) then found.Some? && found.value.name == name && found.value in definitions
      else found.None?
  {
    if definitions != [] {
      var init := definitions[..|definitions| - 1];
      assert definitions == init + [definitions[|definitions| - 1]];
      FindLastFinds(init, name);
    }
  }

  lemma {:induction false} ResolveKeepsNames(deferred: seq<Definition>, names: seq<string>)
    requires forall name | name in names :: name in Names(deferred)
    ensures NameSeq(Resolve(deferred, names)) == names
  {
    if names != [] {
      var init, last := names[..|names| - 1], names[|names| - 1];
      assert names == init + [last];
      ResolveKeepsNames(deferred, init);
      FindLastFinds(deferred, last);
      var before := Resolve(deferred, init);
      assert NameSeq(before + [FindLast(deferred, last).value]) == NameSeq(before) + [last];
    }
  }

  lemma DistinctConcat(a: seq<string>, b: seq<string>)
    ensures Distinct(a + b) <==> Distinct(a) && Distinct(b) && forall x | x in a :: x !in b
  {
    var all := a + b;
    assert forall j | 0 <= j < |b| :: b[j] == all[|a| + j];
    assert forall i | 0 <= i < |a| :: a[i] == all[i];
    if Distinct(all) {
      forall x | x in a ensures x !in b {
        var i :| 0 <= i < |a| && a[i] == x;
        forall j | 0 <= j < |b| ensures b[j] != x {
          assert all[i] != all[|a| + j];
        }
      }
      forall i, j | 0 <= i < j < |b| ensures b[i] != b[j] {
        assert all[|a| + i] != all[|a| + j];
      }
    }
    if Distinct(a) && Distinct(b) && forall x | x in a :: x !in b {
      forall i, j | 0 <= i < j < |all| ensures all[i] != all[j] {
        if i < |a| <= j {
          assert a[i] in a && b[j - |a|] in b;
        }
      }
    }
  }

  lemma {:induction false} FilterKeeps(definitions: seq<Definition>, keep: Definition -> bool)
    requires Distinct(NameSeq(definitions))
    ensures Distinct(NameSeq(Filter(definitions, keep)))
    ensures forall name | name in NameSeq(Filter(definitions, keep)) ::
              exists d :: d in definitions && keep(d) && d.name == name
  {
    if definitions != [] {
      var first, rest := definitions[0], definitions[1..];
      assert definitions == [first] + rest;
      assert NameSeq(definitions) == [first.name] + NameSeq(rest);
      DistinctConcat([first.name], NameSeq(rest));
      FilterKeeps(rest, keep);
      var kept := Filter(rest, keep);
      assert NameSeq([first] + kept) == [first.name] + NameSeq(kept);
      forall name | name in NameSeq(kept) ensures name in NameSeq(rest) {
        var d :| d in rest && keep(d) && d.name == name;
        var k :| 0 <= k < |rest| && rest[k] == d;
        assert NameSeq(rest)[k] == name;
      }
      DistinctConcat([first.name], NameSeq(kept));
      assert [] + kept == kept;
    }
  }

  lemma FixedNamesAreOthers(definitions: seq<Definition>, deferred: seq<Definition>)
    requires Distinct(NameSeq(definitions))
    ensures forall name | name in NameSeq(Filter(definitions, NotAmong(Names(deferred)))) :: name !in Names(deferred)
  {
    FilterKeeps(definitions, NotAmong(Names(deferred)));
  }

  lemma SentNames(fixed: seq<Definition>, shown: seq<Definition>)
    ensures NameSeq(fixed + [TOOL_SEARCH] + shown) == NameSeq(fixed) + [TOOL_SEARCH_NAME] + NameSeq(shown)
  {
  }

  /** With distinct definitions no name is sent twice, unless, and only unless, a deferred tool called
      like the search tool has been surfaced. */
  lemma NoNameTwice(letters: Letters, definitions: seq<Definition>, isDeferred: string -> bool, queries: seq<string>)
    requires Distinct(NameSeq(definitions))
    ensures var deferred := Filter(definitions, NamedBy(isDeferred));
      Distinct(NameSeq(ToolsAfter(letters, definitions, deferred, queries))) <==>
      TOOL_SEARCH_NAME !in SurfacedAfter(letters, deferred, queries)
  {
    var deferred := Filter(definitions, NamedBy(isDeferred));
    var surfaced := SurfacedAfter(letters, deferred, queries);
    var fixed, shown := Filter(definitions, NotAmong(Names(deferred))), Resolve(deferred, surfaced);
    SurfacedIsWholeNamespaces(letters, deferred, queries);
    ResolveKeepsNames(deferred, surfaced);
    FilterKeeps(definitions, NotAmong(Names(deferred)));
    FixedNamesAreOthers(definitions, deferred);
    SentNames(fixed, shown);
    hide Filter, Resolve, SurfacedAfter, Names, NameSeq, Distinct;
    var always := NameSeq(fixed) + [TOOL_SEARCH_NAME];
    DistinctConcat(NameSeq(fixed), [TOOL_SEARCH_NAME]);
    DistinctConcat(always, surfaced);
  }

  // Spaces at either end never change the tokens.
  lemma {:induction false} RunsSkipEnd(letters: Letters, s: string, run: string, c: char)
    requires !letters.isToken(c)
    ensures Runs(letters, s + [c], run) == Runs(letters, s, run)
    decreases |s|
  {
    if s == "" {
      assert Runs(letters, [c], run) == (if run == "" then [] else [run]) + Runs(letters, [c][1..], "");
    } else {
      assert (s + [c])[1..] == s[1..] + [c];
      RunsSkipEnd(letters, s[1..], if letters.isToken(s[0]) then run + [s[0]] else "", c);
    }
  }

  lemma {:induction false} TokensOfTrimmedEnd(letters: Letters, s: string)
    requires KeepsSpaces(letters)
    ensures Tokenize(letters, TrimEnd(s)) == Tokenize(letters, s)
  {
    if s != "" && IsSpace(s[|s| - 1]) {
      var init := s[..|s| - 1];
      TokensOfTrimmedEnd(letters, init);
      assert s == init + [s[|s| - 1]] && FoldsAround(letters, init, s[|s| - 1]);
      RunsSkipEnd(letters, letters.lower(init), "", s[|s| - 1]);
    }
  }

  lemma {:induction false} TokensOfTrimmedStart(letters: Letters, s: string)
    requires KeepsSpaces(letters)
    ensures Tokenize(letters, TrimStart(s)) == Tokenize(letters, s)
  {
    if s != "" && IsSpace(s[0]) {
      TokensOfTrimmedStart(letters, s[1..]);
      assert s == [s[0]] + s[1..] && FoldsAround(letters, s[1..], s[0]);
      assert letters.lower(s)[1..] == letters.lower(s[1..]);
      assert [] + Runs(letters, letters.lower(s[1..]), "") == Runs(letters, letters.lower(s[1..]), "");
    }
  }

  /** The tool and the director agree: whatever was published before, as long as the director was the last
      to publish, and for every query, blank and separator-only ones included, every definition the search
      tool lists is sent on the next turn. */
  lemma FoundToolsAreSent(letters: Letters, definitions: seq<Definition>, deferred: seq<Definition>,
                          published: seq<seq<Definition>>, queries: seq<string>, query: string, d: Definition)
    requires KeepsSpaces(letters) && d in Search(letters, Catalog(published + [deferred]), query)
    ensures exists tool :: tool in ToolsAfter(letters, definitions, deferred, queries + [query]) && tool.name == d.name
    ensures Distinct(NameSeq(deferred)) ==> d in ToolsAfter(letters, definitions, deferred, queries + [query])
  {
    TokensOfTrimmedEnd(letters, TrimStart(query));
    TokensOfTrimmedStart(letters, query);
    var all := queries + [query];
    assert all[..|all| - 1] == queries;
    var found := SearchDefinitions(letters, deferred, query);
    SearchedAreDeferred(letters, deferred, query, d);
    SurfaceAllMembers(deferred, Namespaces(found), SurfacedAfter(letters, deferred, queries), d.name);
    SurfacedIsWholeNamespaces(letters, deferred, all);
    var surfaced := SurfacedAfter(letters, deferred, all);
    ResolvedIsSent(deferred, surfaced, d.name);
    if Distinct(NameSeq(deferred)) {
      FindLastFinds(deferred, d.name);
      SameNameSame(deferred, d, FindLast(deferred, d.name).value);
    }
  }

  lemma {:induction false} ResolvedAreDeferred(deferred: seq<Definition>, names: seq<string>)
    ensures forall d | d in Resolve(deferred, names) :: d in deferred
  {
    if names != [] {
      ResolvedAreDeferred(deferred, names[..|names| - 1]);
      var last := names[|names| - 1];
      if FindLast(deferred, last).Some? {
        FindLastIsPart(deferred, last);
      }
    }
  }

  lemma {:induction false} FindLastIsPart(definitions: seq<Definition>, name: string)
    ensures FindLast(definitions, name).Some? ==> FindLast(definitions, name).value in definitions
  {
    if definitions != [] {
      FindLastIsPart(definitions[..|definitions| - 1], name);
    }
  }

  // What is sent is one of the agent's definitions, or the search tool.
  lemma SentAreDefined(letters: Letters, definitions: seq<Definition>, isDeferred: string -> bool,
                       queries: seq<string>, d: Definition)
    requires d in ToolsAfter(letters, definitions, Filter(definitions, NamedBy(isDeferred)), queries)
    ensures d in definitions || d == TOOL_SEARCH
  {
    var deferred := Filter(definitions, NamedBy(isDeferred));
    FilterIsPart(definitions, NamedBy(isDeferred), d);
    FilterIsPart(definitions, NotAmong(Names(deferred)), d);
    ResolvedAreDeferred(deferred, SurfacedAfter(letters, deferred, queries));
  }

  // A blank query surfaces every deferred tool.
  lemma BlankSendsAll(letters: Letters, definitions: seq<Definition>, isDeferred: string -> bool,
                      queries: seq<string>, d: Definition)
    requires KeepsSpaces(letters) && (d in definitions || d == TOOL_SEARCH)
    ensures var sent := ToolsAfter(letters, definitions, Filter(definitions, NamedBy(isDeferred)), queries + [""]);
      exists tool :: tool in sent && tool.name == d.name
  {
    var deferred := Filter(definitions, NamedBy(isDeferred));
    var sent := ToolsAfter(letters, definitions, deferred, queries + [""]);
    if d.name == TOOL_SEARCH_NAME {
      assert TOOL_SEARCH in Always(definitions, deferred) && TOOL_SEARCH in sent;
    } else {
      FilterIsPart(definitions, NotAmong(Names(deferred)), d);
      if d.name in Names(deferred) {
        var other :| other in deferred && other.name == d.name;
        FoundToolsAreSent(letters, definitions, deferred, [], queries, "", other);
      } else {
        assert d in Always(definitions, deferred) && d in sent;
      }
    }
  }

  /** Where another director published last, a blank search still lists only what is sent, exactly when it
      published no name that this agent lacks. */
  lemma BlankSearchAgreesIff(letters: Letters, definitions: seq<Definition>, isDeferred: string -> bool,
                             published: seq<seq<Definition>>, queries: seq<string>)
    requires KeepsSpaces(letters)
    ensures var sent := ToolsAfter(letters, definitions, Filter(definitions, NamedBy(isDeferred)), queries + [""]);
      (forall d | d in Search(letters, Catalog(published), "") ::
         exists tool :: tool in sent && tool.name == d.name) <==>
      Names(Catalog(published)) <= Names(definitions) + {TOOL_SEARCH_NAME}
  {
    var sent := ToolsAfter(letters, definitions, Filter(definitions, NamedBy(isDeferred)), queries + [""]);
    forall d | d in Catalog(published)
      ensures (exists tool :: tool in sent && tool.name == d.name) <==>
              d.name in Names(definitions) + {TOOL_SEARCH_NAME}
    {
      if tool :| tool in sent && tool.name == d.name {
        SentAreDefined(letters, definitions, isDeferred, queries + [""], tool);
      }
      if d.name in Names(definitions) {
        var own :| own in definitions && own.name == d.name;
        BlankSendsAll(letters, definitions, isDeferred, queries, own);
      } else if d.name == TOOL_SEARCH_NAME {
        BlankSendsAll(letters, definitions, isDeferred, queries, TOOL_SEARCH);
      }
    }
  }

  lemma SameNameSame(definitions: seq<Definition>, a: Definition, b: Definition)
    requires Distinct(NameSeq(definitions)) && a in definitions && b in definitions && a.name == b.name
    ensures a == b
  {
    var i :| 0 <= i < |definitions| && definitions[i] == a;
    var j :| 0 <= j < |definitions| && definitions[j] == b;
    assert NameSeq(definitions)[i] == NameSeq(definitions)[j];
  }

  lemma {:induction false} ResolvedIsSent(deferred: seq<Definition>, names: seq<string>, name: string)
    requires name in names && name in Names(deferred)
    ensures FindLast(deferred, name).Some? && FindLast(deferred, name).value in Resolve(deferred, names)
    ensures FindLast(deferred, name).value.name == name
  {
    FindLastFinds(deferred, name);
    if names[|names| - 1] != name {
      ResolvedIsSent(deferred, names[..|names| - 1], name);
    }
  }

  lemma {:induction false} FilterIsPart(definitions: seq<Definition>, keep: Definition -> bool, d: Definition)
    ensures d in Filter(definitions, keep) <==> d in definitions && keep(d)
  {
    if definitions != [] {
      FilterIsPart(definitions[1..], keep, d);
      assert definitions == [definitions[0]] + definitions[1..];
    }
  }

  // What the tool lists, the director's own search of the untrimmed query matches.
  lemma SearchedAreDeferred(letters: Letters, deferred: seq<Definition>, query: string, d: Definition)
    requires d in Search(letters, deferred, query) && letters.lower("") == ""
    requires Tokenize(letters, Trim(query)) == Tokenize(letters, query)
    ensures d in deferred && d in SearchDefinitions(letters, deferred, query)
  {
    var tokens := Tokenize(letters, query);
    FilterIsPart(deferred, Matching(letters, tokens), d);
  }
}
