/** The rollups of workflow runs: headline, per-day and per-workflow tallies, and the local day a run counts for. */
module Insights {
  import opened Options

  const DAY: int := 86_400_000
  const HALF_DAY: int := 43_200_000

  // `created` is the parsed creation time; None is one that does not parse.
  datatype Run = Run(routineId: Option<string>, definitionId: string, definitionName: string,
                     status: string, endedAt: Option<string>, created: Option<int>)

  datatype Bucket = Ok | Fail | Other

  function OutcomeStatus(run: Run): string {
    if run.status == "running" then if run.endedAt.Some? && run.endedAt.value != "" then "completed" else "running"
    else if run.status == "error" then "failed"
    else run.status
  }

  function BucketOf(run: Run): Bucket {
    var outcome := OutcomeStatus(run);
    if outcome == "completed" then Ok else if outcome == "error" || outcome == "failed" then Fail else Other
  }

  function KeyOf(run: Run): string {
    if run.routineId.Some? then run.routineId.value else run.definitionId
  }

  // The time zone: the local day of an instant, and the instant that day is said to start at.
  datatype Calendar = Calendar(day: int -> int, midnight: int -> int)

  // Math.round of a / b.
  function Round(a: int, b: int): int
    requires b > 0
  {
    (2 * a + b) / (2 * b)
  }

  function DayIndex(calendar: Calendar, start: int, run: Run): int {
    if run.created.Some? then Round(calendar.midnight(run.created.value) - start, DAY) else 0
  }

  predicate InRange(run: Run, purpose: string -> bool, start: int, now: int) {
    purpose(run.definitionName) && run.created.Some? && start <= run.created.value <= now
  }

  function Within(runs: seq<Run>, purpose: string -> bool, start: int, now: int): seq<Run> {
    if runs == [] then []
    else Within(runs[..|runs| - 1], purpose, start, now) +
         if InRange(runs[|runs| - 1], purpose, start, now) then [runs[|runs| - 1]] else []
  }

  datatype Tally = Tally(ok: nat, fail: nat, other: nat) {
    function Plus(that: Tally): Tally {
      Tally(ok + that.ok, fail + that.fail, other + that.other)
    }
    function Total(): nat {
      ok + fail + other
    }
  }

  function Nothing(): Tally {
    Tally(0, 0, 0)
  }

  function One(run: Run): Tally {
    match BucketOf(run)
    case Ok => Tally(1, 0, 0)
    case Fail => Tally(0, 1, 0)
    case Other => Tally(0, 0, 1)
  }

  function TallyOf(runs: seq<Run>): (tally: Tally)
    ensures tally.Total() == |runs|
  {
    if runs == [] then Nothing() else TallyOf(runs[..|runs| - 1]).Plus(One(runs[|runs| - 1]))
  }

  // The runs of one class: a day, or a workflow.
  function Part<K(==)>(runs: seq<Run>, classOf: Run -> K, class_: K): seq<Run> {
    if runs == [] then []
    else
      var last := runs[|runs| - 1];
      Part(runs[..|runs| - 1], classOf, class_) + if classOf(last) == class_ then [last] else []
  }

  function Sum(tallies: seq<Tally>): Tally {
    if tallies == [] then Nothing() else tallies[0].Plus(Sum(tallies[1..]))
  }

  function Tallies<K(==)>(classes: seq<K>, runs: seq<Run>, classOf: Run -> K): seq<Tally> {
    seq(|classes|, i requires 0 <= i < |classes| => TallyOf(Part(runs, classOf, classes[i])))
  }

  ghost predicate Distinct<K>(classes: seq<K>) {
    forall i, j | 0 <= i < j < |classes| :: classes[i] != classes[j]
  }

  lemma OneCounts(run: Run)
    ensures One(run).ok == if BucketOf(run) == Ok then 1 else 0
    ensures One(run).fail == if BucketOf(run) == Fail then 1 else 0
  {
  }

  lemma TallyGrows(runs: seq<Run>, run: Run)
    ensures TallyOf(runs + [run]) == TallyOf(runs).Plus(One(run))
  {
  }

  lemma PartAppended<K>(runs: seq<Run>, run: Run, classOf: Run -> K, class_: K)
    ensures Part(runs + [run], classOf, class_) ==
            Part(runs, classOf, class_) + if classOf(run) == class_ then [run] else []
  {
    var more := runs + [run];
    assert more[..|more| - 1] == runs && more[|more| - 1] == run;
  }

  lemma PartGrows<K>(runs: seq<Run>, run: Run, classOf: Run -> K, class_: K)
    ensures TallyOf(Part(runs + [run], classOf, class_)) ==
            var before := TallyOf(Part(runs, classOf, class_));
            if classOf(run) == class_ then before.Plus(One(run)) else before
  {
    hide Part, TallyOf, One;
    PartAppended(runs, run, classOf, class_);
    var part := Part(runs, classOf, class_);
    if classOf(run) == class_ {
      TallyGrows(part, run);
    } else {
      assert part + [] == part;
    }
  }

  lemma NoClasses<K>(classes: seq<K>, runs: seq<Run>, classOf: Run -> K)
    requires classes == []
    ensures Tallies(classes, runs, classOf) == []
  {
  }

  lemma TalliesStep<K>(classes: seq<K>, runs: seq<Run>, classOf: Run -> K)
    requires classes != []
    ensures Sum(Tallies(classes, runs, classOf)) ==
            TallyOf(Part(runs, classOf, classes[0])).Plus(Sum(Tallies(classes[1..], runs, classOf)))
  {
    hide Part, TallyOf;
    assert Tallies(classes, runs, classOf)[1..] == Tallies(classes[1..], runs, classOf);
  }

  lemma {:induction false} OneMore<K>(classes: seq<K>, runs: seq<Run>, run: Run, classOf: Run -> K)
    requires Distinct(classes)
    ensures Sum(Tallies(classes, runs + [run], classOf)) ==
            if classOf(run) in classes then Sum(Tallies(classes, runs, classOf)).Plus(One(run))
            else Sum(Tallies(classes, runs, classOf))
  {
    hide Part, TallyOf, Tallies, One;
    if classes == [] {
      NoClasses(classes, runs, classOf);
      NoClasses(classes, runs + [run], classOf);
    } else {
      hide Sum;
      OneMore(classes[1..], runs, run, classOf);
      TalliesStep(classes, runs, classOf);
      TalliesStep(classes, runs + [run], classOf);
      PartGrows(runs, run, classOf, classes[0]);
    }
  }

  lemma {:induction false} NoRunsSum<K>(classes: seq<K>, runs: seq<Run>, classOf: Run -> K)
    requires |runs| == 0
    ensures Sum(Tallies(classes, runs, classOf)) == Nothing()
  {
    hide Tallies, Part, TallyOf;
    if |classes| == 0 {
      NoClasses(classes, runs, classOf);
    } else {
      hide Sum;
      TalliesStep(classes, runs, classOf);
      NoPart(runs, classOf, classes[0]);
      NoRunsSum(classes[1..], runs, classOf);
    }
  }

  lemma NoPart<K>(runs: seq<Run>, classOf: Run -> K, c: K)
    requires |runs| == 0
    ensures TallyOf(Part(runs, classOf, c)) == Nothing()
  {
  }

  /** Distinct classes that cover the runs share them out: the tallies add up to that of all runs. */
  lemma {:induction false} PartsSumToWhole<K>(classes: seq<K>, runs: seq<Run>, classOf: Run -> K)
    requires Distinct(classes) && forall run | run in runs :: classOf(run) in classes
    ensures Sum(Tallies(classes, runs, classOf)) == TallyOf(runs)
  {
    if runs == [] {
      NoRunsSum(classes, runs, classOf);
    } else {
      var init, last := runs[..|runs| - 1], runs[|runs| - 1];
      assert runs == init + [last];
      PartsSumToWhole(classes, init, classOf);
      OneMore(classes, init, last, classOf);
    }
  }

  /** Rounding finds the day exactly when its start is off whole days by less than twelve hours. */
  lemma RoundIsDayIff(n: int, shift: int)
    ensures Round(n * DAY + shift, DAY) == n <==> -HALF_DAY <= shift < HALF_DAY
  {
  }

  // Local days only go up, the range runs from the first one's start to within the last one, and days of
  // 23 or 25 hours move midnight, but never by half a day.
  ghost predicate Regular(calendar: Calendar, start: int, first: int, range: nat, now: int) {
    && (forall a, b | start <= a <= b <= now :: calendar.day(a) <= calendar.day(b))
    && (start <= now ==> calendar.day(start) == first && calendar.day(now) == first + range - 1)
    && (forall t | start <= t <= now ::
          -HALF_DAY <= calendar.midnight(t) - start - (calendar.day(t) - first) * DAY < HALF_DAY)
  }

  function ByDay(calendar: Calendar, start: int): Run -> int {
    (run: Run) => DayIndex(calendar, start, run)
  }

  function ByKey(): Run -> string {
    (run: Run) => KeyOf(run)
  }

  function Indices(range: nat): seq<int> {
    seq(range, i => i)
  }

  lemma {:induction false} WithinAreInRange(runs: seq<Run>, purpose: string -> bool, start: int, now: int)
    ensures forall run | run in Within(runs, purpose, start, now) :: InRange(run, purpose, start, now)
  {
    if runs != [] {
      WithinAreInRange(runs[..|runs| - 1], purpose, start, now);
    }
  }

  /** In a regular calendar every counted run has its local day's bucket. */
  lemma RunsFallOnTheirDay(calendar: Calendar, start: int, first: int, range: nat, purpose: string -> bool,
                           now: int, run: Run)
    requires Regular(calendar, start, first, range, now) && InRange(run, purpose, start, now)
    ensures DayIndex(calendar, start, run) == calendar.day(run.created.value) - first
    ensures 0 <= DayIndex(calendar, start, run) < range
  {
  }

  /** So the day buckets add up to the headline, bucket by bucket. */
  lemma DaysSumToTotal(calendar: Calendar, start: int, first: int, range: nat, runs: seq<Run>,
                       purpose: string -> bool, now: int)
    requires Regular(calendar, start, first, range, now)
    ensures var within := Within(runs, purpose, start, now);
      Sum(Tallies(Indices(range), within, ByDay(calendar, start))) == TallyOf(within)
  {
    var within := Within(runs, purpose, start, now);
    WithinAreInRange(runs, purpose, start, now);
    forall run | run in within ensures ByDay(calendar, start)(run) in Indices(range) {
      RunsFallOnTheirDay(calendar, start, first, range, purpose, now, run);
      assert Indices(range)[DayIndex(calendar, start, run)] == DayIndex(calendar, start, run);
    }
    PartsSumToWhole(Indices(range), within, ByDay(calendar, start));
  }

  datatype Row = Row(key: string, runs: nat, tally: Tally)

  datatype BenchInsights = BenchInsights(total: nat, ok: nat, fail: nat, days: seq<Tally>, workflows: seq<Row>)

  function RowOf(runs: seq<Run>, key: string): Row {
    var group := Part(runs, ByKey(), key);
    Row(key, |group|, TallyOf(group))
  }

  function RowTallies(rows: seq<Row>): seq<Tally> {
    seq(|rows|, i requires 0 <= i < |rows| => rows[i].tally)
  }

  // Which runs have been seen, as groups in the order of their first run.
  ghost predicate Grouped(groups: map<string, seq<Run>>, keys: seq<string>, runs: seq<Run>) {
    && Distinct(keys) && (forall key :: key in keys <==> key in groups)
    && (forall key | key in groups :: groups[key] == Part(runs, ByKey(), key))
    && (forall run | run in runs :: KeyOf(run) in keys)
  }

  lemma GroupedGrows(groups: map<string, seq<Run>>, keys: seq<string>, runs: seq<Run>, run: Run)
    requires Grouped(groups, keys, runs)
    ensures var key := KeyOf(run);
      var group := (if key in groups then groups[key] else []) + [run];
      Grouped(groups[key := group], if key in groups then keys else keys + [key], runs + [run])
  {
    hide Part, KeyOf;
    var key := KeyOf(run);
    forall k ensures Part(runs + [run], ByKey(), k) == Part(runs, ByKey(), k) + if k == key then [run] else [] {
      PartAppended(runs, run, ByKey(), k);
    }
    if key !in groups {
      NoneOfClass(runs, key);
    }
  }

  lemma {:induction false} NoneOfClass(runs: seq<Run>, key: string)
    requires forall run | run in runs :: KeyOf(run) != key
    ensures Part(runs, ByKey(), key) == []
  {
    if runs != [] {
      NoneOfClass(runs[..|runs| - 1], key);
    }
  }

  method FilterRuns(runs: seq<Run>, purpose: string -> bool, start: int, now: int) returns (within: seq<Run>)
    ensures within == Within(runs, purpose, start, now)
  {
    within := [];
    for i := 0 to |runs|
      invariant within == Within(runs[..i], purpose, start, now)
    {
      assert runs[..i + 1][..i] == runs[..i];
      if InRange(runs[i], purpose, start, now) {
        within := within + [runs[i]];
      }
    }
    assert runs[..|runs|] == runs;
  }

  method TallyRuns(within: seq<Run>, calendar: Calendar, start: int, range: nat)
    returns (ok: nat, fail: nat, days: seq<Tally>, groups: map<string, seq<Run>>, keys: seq<string>)
    ensures ok == TallyOf(within).ok && fail == TallyOf(within).fail
    ensures days == Tallies(Indices(range), within, ByDay(calendar, start))
    ensures Grouped(groups, keys, within)
  {
    hide Tallies, Grouped, DayIndex, KeyOf, Part, Indices, ByDay, BucketOf, One, TallyOf;
    ok, fail, groups, keys := 0, 0, map[], [];
    days := seq(range, i => Nothing());
    NothingTallied(calendar, start, range);
    for i := 0 to |within|
      invariant |days| == range && days == Tallies(Indices(range), within[..i], ByDay(calendar, start))
      invariant ok == TallyOf(within[..i]).ok && fail == TallyOf(within[..i]).fail
      invariant Grouped(groups, keys, within[..i])
    {
      var run := within[i];
      ghost var before := within[..i];
      assert within[..i + 1] == before + [run];
      GroupedGrows(groups, keys, before, run);
      TallyGrows(before, run);
      OneCounts(run);
      DayGrows(calendar, start, range, before, run);
      var index, key := DayIndex(calendar, start, run), KeyOf(run);
      var bucket := BucketOf(run);
      if bucket == Ok {
        ok := ok + 1;
      } else if bucket == Fail {
        fail := fail + 1;
      }
      if 0 <= index < range {
        days := days[index := days[index].Plus(One(run))];
      }
      var group := if key in groups then groups[key] else [];
      keys := if key in groups then keys else keys + [key];
      groups := groups[key := group + [run]];
    }
    assert within[..|within|] == within;
  }

  lemma NothingTallied(calendar: Calendar, start: int, range: nat)
    ensures Tallies(Indices(range), [], ByDay(calendar, start)) == seq(range, i => Nothing())
    ensures Grouped(map[], [], [])
  {
  }

  method WorkflowRows(groups: map<string, seq<Run>>, keys: seq<string>, within: seq<Run>) returns (rows: seq<Row>)
    requires Grouped(groups, keys, within)
    ensures |rows| == |keys|
    ensures forall k | 0 <= k < |keys| :: rows[k] == RowOf(within, keys[k])
  {
    hide Part, TallyOf;
    rows := [];
    for i := 0 to |keys|
      invariant |rows| == i
      invariant forall k | 0 <= k < i :: rows[k] == RowOf(within, keys[k])
    {
      assert keys[i] in groups;
      var group := groups[keys[i]];
      rows := rows + [Row(keys[i], |group|, TallyOf(group))];
    }
  }

  /** The headline counts the runs in range; the days are their tallies by rounded index; and the workflow
      rows, one for each key, add up to the headline. */
  method ComputeBenchInsights(runs: seq<Run>, purpose: string -> bool, calendar: Calendar, start: int,
                              range: nat, now: int)
    returns (r: BenchInsights)
    ensures var within := Within(runs, purpose, start, now);
      && r.total == |within| && r.ok == TallyOf(within).ok && r.fail == TallyOf(within).fail
      && r.days == Tallies(Indices(range), within, ByDay(calendar, start))
      && Sum(RowTallies(r.workflows)) == TallyOf(within)
    ensures forall row | row in r.workflows ::
              row.runs == row.tally.Total() &&
              row.tally == TallyOf(Part(Within(runs, purpose, start, now), ByKey(), row.key))
    ensures forall i, j | 0 <= i < j < |r.workflows| :: r.workflows[i].key != r.workflows[j].key
  {
    var within := FilterRuns(runs, purpose, start, now);
    var ok, fail, days, groups, keys := TallyRuns(within, calendar, start, range);
    var rows := WorkflowRows(groups, keys, within);
    assert RowTallies(rows) == Tallies(keys, within, ByKey());
    PartsSumToWhole(keys, within, ByKey());
    r := BenchInsights(|within|, ok, fail, days, rows);
  }

  lemma DayGrows(calendar: Calendar, start: int, range: nat, runs: seq<Run>, run: Run)
    ensures var before, after := Tallies(Indices(range), runs, ByDay(calendar, start)),
                                 Tallies(Indices(range), runs + [run], ByDay(calendar, start));
      var index := DayIndex(calendar, start, run);
      after == if 0 <= index < range then before[index := before[index].Plus(One(run))] else before
  {
    forall i | 0 <= i < range
      ensures TallyOf(Part(runs + [run], ByDay(calendar, start), i)) ==
              var before := TallyOf(Part(runs, ByDay(calendar, start), i));
              if i == DayIndex(calendar, start, run) then before.Plus(One(run)) else before
    {
      PartGrows(runs, run, ByDay(calendar, start), i);
    }
  }

  /** The bucket of a run: a run that is marked running counts as succeeded once it has ended. */
  lemma BucketIs(run: Run)
    ensures BucketOf(run) == Ok <==>
            run.status == "completed" || (run.status == "running" && run.endedAt.Some? && run.endedAt.value != "")
    ensures BucketOf(run) == Fail <==> run.status == "failed" || run.status == "error"
  {
  }

  /** Counted are the runs of the range, both ends included, for a purpose, with a time that parses. */
  lemma {:induction false} CountedIff(runs: seq<Run>, purpose: string -> bool, start: int, now: int, run: Run)
    ensures run in Within(runs, purpose, start, now) <==>
            run in runs && purpose(run.definitionName) && exists t :: run.created == Some(t) && start <= t <= now
  {
    if runs != [] {
      var init, last := runs[..|runs| - 1], runs[|runs| - 1];
      CountedIff(init, purpose, start, now, run);
      assert runs == init + [last];
    }
  }

  /** Two runs share a workflow row exactly when they have the same routine, or, where either has none, the
      names they go by agree. */
  lemma SameRowIff(a: Run, b: Run)
    ensures a.routineId.Some? && b.routineId.Some? ==> (ByKey()(a) == ByKey()(b) <==> a.routineId == b.routineId)
    ensures a.routineId.None? && b.routineId.None? ==> (ByKey()(a) == ByKey()(b) <==> a.definitionId == b.definitionId)
    ensures a.routineId.Some? && b.routineId.None? ==>
              (ByKey()(a) == ByKey()(b) <==> a.routineId == Some(b.definitionId))
  {
  }
}
