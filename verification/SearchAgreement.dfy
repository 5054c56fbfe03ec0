/**
 * When the search tool and the director agree on every query, though another director may have published
 * its catalogue last; which configurations never send a name twice, and what they hold back.
 */
module SearchAgreement {
  import opened Text
  import opened DeferredTools

  lemma {:induction false} ContainsWhere(s: string, t: string) returns (i: nat)
    requires Contains(s, t)
    ensures i + |t| <= |s| && s[i..i + |t|] == t
  {
    if t <= s {
      i := 0;
    } else {
      i := ContainsWhere(s[1..], t);
      assert s[1..][i..i + |t|] == s[i + 1..i + 1 + |t|];
      i := i + 1;
    }
  }

  lemma {:induction false} ContainsAt(s: string, t: string, i: nat)
    requires i + |t| <= |s| && s[i..i + |t|] == t
    ensures Contains(s, t)
  {
    if i == 0 {
      assert s[..|t|] == t;
    } else {
      assert s[1..][i - 1..i - 1 + |t|] == s[i..i + |t|];
      ContainsAt(s[1..], t, i - 1);
    }
  }

  lemma ContainsTransitive(a: string, b: string, c: string)
    requires Contains(a, b) && Contains(b, c)
    ensures Contains(a, c)
  {
    var i := ContainsWhere(a, b);
    var j := ContainsWhere(b, c);
    forall k | 0 <= k < |c| ensures a[i + j..i + j + |c|][k] == c[k] {
      assert b[j..j + |c|][k] == b[j + k] == a[i..i + |b|][j + k];
    }
    ContainsAt(a, c, i + j);
  }

  ghost predicate IsToken(letters: Letters, t: string) {
    t != "" && AllToken(letters, t)
  }

  ghost predicate AllToken(letters: Letters, t: string) {
    forall i | 0 <= i < |t| :: letters.isToken(t[i])
  }

  // Every run is made of token characters, and is a part of the text.
  lemma {:induction false} RunsAreParts(letters: Letters, s: string, run: string, r: string)
    requires AllToken(letters, run) && r in Runs(letters, s, run)
    ensures IsToken(letters, r) && Contains(run + s, r)
    decreases |s|
  {
    if s == "" {
      ContainsAt(run + s, run, 0);
    } else if letters.isToken(s[0]) {
      assert (run + [s[0]]) + s[1..] == run + s;
      RunsAreParts(letters, s[1..], run + [s[0]], r);
    } else if r in Runs(letters, s[1..], "") {
      RunsAreParts(letters, s[1..], "", r);
      ContainsAt(run + s, "" + s[1..], |run| + 1);
      ContainsTransitive(run + s, "" + s[1..], r);
    } else {
      ContainsAt(run + s, run, 0);
    }
  }

  // A token inside the text lies inside one of its runs.
  lemma {:induction false} TokenIsInsideRun(letters: Letters, s: string, run: string, t: string) returns (r: string)
    requires AllToken(letters, run) && IsToken(letters, t) && Contains(run + s, t)
    ensures r in Runs(letters, s, run) && Contains(r, t)
    decreases |s|
  {
    if s == "" {
      r := run;
      assert run + s == run;
    } else if letters.isToken(s[0]) {
      assert (run + [s[0]]) + s[1..] == run + s;
      r := TokenIsInsideRun(letters, s[1..], run + [s[0]], t);
    } else {
      var i := ContainsWhere(run + s, t);
      forall k | i <= k < i + |t| ensures letters.isToken((run + s)[k]) {
        assert (run + s)[k] == t[k - i];
      }
      assert !letters.isToken((run + s)[|run|]);
      if i + |t| <= |run| {
        assert run[i..i + |t|] == t;
        ContainsAt(run, t, i);
        r := run;
      } else {
        assert s[1..][i - |run| - 1..i - |run| - 1 + |t|] == t;
        ContainsAt("" + s[1..], t, i - |run| - 1);
        r := TokenIsInsideRun(letters, s[1..], "", t);
      }
    }
  }

  // What a search looks through.
  function TextOf(d: Definition): string {
    d.name + " " + d.description
  }

  lemma OwnTextMatches(letters: Letters, d: Definition)
    ensures Matches(letters, d, Tokenize(letters, TextOf(d)))
  {
    forall t | t in Tokenize(letters, TextOf(d)) ensures Contains(letters.lower(TextOf(d)), t) {
      RunsAreParts(letters, letters.lower(TextOf(d)), "", t);
      assert "" + letters.lower(TextOf(d)) == letters.lower(TextOf(d));
    }
  }

  // Whatever matches all the text of a definition matches every query that the definition does.
  lemma TextMatchCarries(letters: Letters, d: Definition, e: Definition, query: string)
    requires Matches(letters, d, Tokenize(letters, query)) && Matches(letters, e, Tokenize(letters, TextOf(d)))
    ensures Matches(letters, e, Tokenize(letters, query))
    ensures Tokenize(letters, TextOf(d)) == [] ==> Tokenize(letters, query) == []
  {
    var text := letters.lower(TextOf(d));
    forall t | t in Tokenize(letters, query)
      ensures Tokenize(letters, TextOf(d)) != [] && Contains(letters.lower(TextOf(e)), t)
    {
      RunsAreParts(letters, letters.lower(query), "", t);
      assert "" + text == text;
      var r := TokenIsInsideRun(letters, text, "", t);
      ContainsTransitive(letters.lower(TextOf(e)), r, t);
    }
    assert Tokenize(letters, query) != [] ==> Tokenize(letters, query)[0] in Tokenize(letters, query);
  }

  // After these queries a tool of that name is sent.
  ghost predicate Sent(letters: Letters, definitions: seq<Definition>, isDeferred: string -> bool,
                       queries: seq<string>, name: string)
  {
    exists tool :: tool in ToolsAfter(letters, definitions, Filter(definitions, NamedBy(isDeferred)), queries) &&
                   tool.name == name
  }

  lemma SentIff(letters: Letters, definitions: seq<Definition>, isDeferred: string -> bool,
                queries: seq<string>, name: string)
    ensures var deferred := Filter(definitions, NamedBy(isDeferred));
      Sent(letters, definitions, isDeferred, queries, name) <==>
      name in Names(Always(definitions, deferred)) || name in SurfacedAfter(letters, deferred, queries)
  {
    var deferred := Filter(definitions, NamedBy(isDeferred));
    var always, surfaced := Always(definitions, deferred), SurfacedAfter(letters, deferred, queries);
    SurfacedIsWholeNamespaces(letters, deferred, queries);
    ResolveKeepsNames(deferred, surfaced);
    if tool :| tool in always + Resolve(deferred, surfaced) && tool.name == name {
      if tool in Resolve(deferred, surfaced) {
        var k :| 0 <= k < |Resolve(deferred, surfaced)| && Resolve(deferred, surfaced)[k] == tool;
        assert NameSeq(Resolve(deferred, surfaced))[k] == name;
      }
    }
    if name in Names(always) {
      var tool :| tool in always && tool.name == name;
      assert tool in always + Resolve(deferred, surfaced);
    } else if name in surfaced {
      ResolvedIsSent(deferred, surfaced, name);
    }
  }

  // One more query sends the deferred tools of the namespaces it matched, and what was sent before.
  lemma SentAfterQuery(letters: Letters, definitions: seq<Definition>, isDeferred: string -> bool,
                       queries: seq<string>, query: string, name: string)
    ensures var deferred := Filter(definitions, NamedBy(isDeferred));
      Sent(letters, definitions, isDeferred, queries + [query], name) <==>
      Sent(letters, definitions, isDeferred, queries, name) ||
      (name in Names(deferred) && Namespace(name) in Namespaces(SearchDefinitions(letters, deferred, query)))
  {
    var deferred := Filter(definitions, NamedBy(isDeferred));
    SentIff(letters, definitions, isDeferred, queries, name);
    SentIff(letters, definitions, isDeferred, queries + [query], name);
    var all := queries + [query];
    assert all[..|all| - 1] == queries && all[|all| - 1] == query;
    var found := SearchDefinitions(letters, deferred, query);
    SurfaceAllMembers(deferred, Namespaces(found), SurfacedAfter(letters, deferred, queries), name);
  }

  lemma SearchedIff(letters: Letters, definitions: seq<Definition>, query: string, d: Definition)
    ensures d in SearchDefinitions(letters, definitions, query) <==>
            d in definitions && Matches(letters, d, Tokenize(letters, query))
  {
    FilterIsPart(definitions, Matching(letters, Tokenize(letters, query)), d);
  }

  lemma ListedIff(letters: Letters, catalog: seq<Definition>, query: string, d: Definition)
    requires KeepsSpaces(letters)
    ensures d in Search(letters, catalog, query) <==> d in catalog && Matches(letters, d, Tokenize(letters, query))
  {
    TokensOfTrimmedEnd(letters, TrimStart(query));
    TokensOfTrimmedStart(letters, query);
    SearchedIff(letters, catalog, Trim(query), d);
  }

  // What its own text surfaces, every query that lists a definition surfaces.
  lemma TextSurfacesLeast(letters: Letters, deferred: seq<Definition>, query: string, d: Definition)
    requires Matches(letters, d, Tokenize(letters, query))
    ensures Namespaces(SearchDefinitions(letters, deferred, TextOf(d))) <=
            Namespaces(SearchDefinitions(letters, deferred, query))
  {
    forall e | e in SearchDefinitions(letters, deferred, TextOf(d))
      ensures e in SearchDefinitions(letters, deferred, query)
    {
      SearchedIff(letters, deferred, TextOf(d), e);
      SearchedIff(letters, deferred, query, e);
      TextMatchCarries(letters, d, e, query);
    }
  }

  /** Whoever published last, every tool listed for any query is sent on the next turn, exactly when each
      published definition's own text, as a query, has it sent: one search for each settles them all. */
  lemma SearchAgreesIff(letters: Letters, definitions: seq<Definition>, isDeferred: string -> bool,
                        published: seq<seq<Definition>>, queries: seq<string>)
    requires KeepsSpaces(letters)
    ensures
      (forall query, d | d in Search(letters, Catalog(published), query) ::
         Sent(letters, definitions, isDeferred, queries + [query], d.name)) <==>
      (forall d | d in Catalog(published) :: Sent(letters, definitions, isDeferred, queries + [TextOf(d)], d.name))
  {
    var catalog, deferred := Catalog(published), Filter(definitions, NamedBy(isDeferred));
    hide Sent, Matches, Search, SearchDefinitions, KeepsSpaces, Catalog;
    forall d | d in catalog ensures d in Search(letters, catalog, TextOf(d)) {
      OwnTextMatches(letters, d);
      ListedIff(letters, catalog, TextOf(d), d);
    }
    forall query, d | d in Search(letters, catalog, query)
      ensures d in catalog
      ensures Sent(letters, definitions, isDeferred, queries + [TextOf(d)], d.name) ==>
              Sent(letters, definitions, isDeferred, queries + [query], d.name)
    {
      ListedIff(letters, catalog, query, d);
      TextSurfacesLeast(letters, deferred, query, d);
      SentAfterQuery(letters, definitions, isDeferred, queries, query, d.name);
      SentAfterQuery(letters, definitions, isDeferred, queries, TextOf(d), d.name);
    }
  }

  /** Known names alone do not make them agree: where the published definition of an agent's deferred tool
      reads otherwise, a query that only the published text matches lists the tool and does not send it. */
  lemma SameNameMayDisagree(letters: Letters, own: Definition, other: Definition, query: string)
    requires KeepsSpaces(letters) && own.name == other.name && own.name != TOOL_SEARCH_NAME
    requires Matches(letters, other, Tokenize(letters, query)) && !Matches(letters, own, Tokenize(letters, query))
    ensures other in Search(letters, Catalog([[own], [other]]), query)
    ensures !Sent(letters, [own], _ => true, [query], other.name)
  {
    var isDeferred: string -> bool := _ => true;
    ListedIff(letters, [other], query, other);
    FilterIsPart([own], NamedBy(isDeferred), own);
    var deferred := Filter([own], NamedBy(isDeferred));
    assert deferred == [own];
    forall e ensures e !in SearchDefinitions(letters, deferred, query) {
      SearchedIff(letters, deferred, query, e);
    }
    SentAfterQuery(letters, [own], isDeferred, [], query, own.name);
    SentIff(letters, [own], isDeferred, [], own.name);
    FilterIsPart([own], NotAmong(Names(deferred)), own);
    assert [] + [query] == [query];
  }

  /** A configuration never sends a name twice, whatever is searched, exactly when it defers no tool called
      like the search tool. */
  lemma NoNameEverTwiceIff(letters: Letters, definitions: seq<Definition>, isDeferred: string -> bool)
    requires Distinct(NameSeq(definitions))
    ensures var deferred := Filter(definitions, NamedBy(isDeferred));
      (forall queries :: Distinct(NameSeq(ToolsAfter(letters, definitions, deferred, queries)))) <==>
      TOOL_SEARCH_NAME !in Names(deferred)
  {
    var deferred := Filter(definitions, NamedBy(isDeferred));
    hide Distinct, SearchDefinitions, Filter;
    if d :| d in deferred && d.name == TOOL_SEARCH_NAME {
      var query := TextOf(d);
      OwnTextMatches(letters, d);
      SearchedIff(letters, deferred, query, d);
      SurfaceAllMembers(deferred, Namespaces(SearchDefinitions(letters, deferred, query)), [], TOOL_SEARCH_NAME);
      assert SurfacedAfter(letters, deferred, [query]) == Surface(letters, deferred, query, []);
      NoNameTwice(letters, definitions, isDeferred, [query]);
    } else {
      forall queries ensures Distinct(NameSeq(ToolsAfter(letters, definitions, deferred, queries))) {
        SurfacedIsWholeNamespaces(letters, deferred, queries);
        NoNameTwice(letters, definitions, isDeferred, queries);
      }
    }
  }

  /** A namespace is all of a name before its first separator. */
  lemma {:induction false} NamespaceIsBeforeSeparator(name: string)
    ensures var space := Namespace(name);
      && space <= name && '_' !in space && '.' !in space
      && (space == name || name[|space|] == '_' || name[|space|] == '.')
  {
    if name != "" && name[0] != '_' && name[0] != '.' {
      NamespaceIsBeforeSeparator(name[1..]);
      assert name == [name[0]] + name[1..];
    }
  }

  /** More tokens only narrow a search, and none at all leave everything. */
  lemma TokensNarrow(letters: Letters, d: Definition, a: seq<string>, b: seq<string>)
    ensures Matches(letters, d, a + b) <==> Matches(letters, d, a) && Matches(letters, d, b)
    ensures Matches(letters, d, [])
    ensures forall t :: Matches(letters, d, [t]) <==> Contains(letters.lower(d.name + " " + d.description), t)
  {
  }

  /** A deferred tool is held back until some search surfaces it, and every other tool is always sent. */
  lemma DeferredAreHeldBack(letters: Letters, definitions: seq<Definition>, isDeferred: string -> bool,
                            queries: seq<string>, d: Definition)
    requires d in definitions && d.name != TOOL_SEARCH_NAME
    ensures !isDeferred(d.name) ==> Sent(letters, definitions, isDeferred, queries, d.name)
    ensures isDeferred(d.name) ==>
      (Sent(letters, definitions, isDeferred, queries, d.name) <==>
       d.name in SurfacedAfter(letters, Filter(definitions, NamedBy(isDeferred)), queries))
    ensures isDeferred(d.name) ==> !Sent(letters, definitions, isDeferred, [], d.name)
  {
    var deferred := Filter(definitions, NamedBy(isDeferred));
    SentIff(letters, definitions, isDeferred, queries, d.name);
    SentIff(letters, definitions, isDeferred, [], d.name);
    FilterIsPart(definitions, NamedBy(isDeferred), d);
    FilterIsPart(definitions, NotAmong(Names(deferred)), d);
    forall e | e in Always(definitions, deferred) ensures e == TOOL_SEARCH || e.name !in Names(deferred) {
      FilterIsPart(definitions, NotAmong(Names(deferred)), e);
    }
    forall e | e in deferred ensures isDeferred(e.name) {
      FilterIsPart(definitions, NamedBy(isDeferred), e);
    }
    if !isDeferred(d.name) {
      assert d.name !in Names(deferred) && d in Always(definitions, deferred);
    }
  }
}
