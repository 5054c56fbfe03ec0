/**
 * Ensuring the built-in Exa server of one workspace: calls are chained per workspace, and each run
 * lists the hub's rows, then adds a provider and a credential row when it sees no Exa.
 */
module McpServers {
  import opened Options

  // Where one ensure stands. `Listing` waits for two requests that are answered independently.
  datatype Phase =
    | Waiting
    | Listing(providerSeen: Option<Option<bool>>, rowsSeen: Option<set<nat>>)
    | Providing
    | Storing
    | Discovering(row: nat)
    | Patching(row: nat)
    | Dropping(row: nat)
    | Done(ok: bool)

  datatype Flight = Flight(after: Option<nat>, phase: Phase)

  // The hub's provider row named for Exa, if any, and whether it carries the MCP plugin; the Exa
  // credential rows on it; the flights in call order; the queue entry of the workspace.
  datatype State = State(provider: Option<bool>, rows: set<nat>, flights: seq<Flight>, queue: Option<nat>)

  datatype Step =
    | Call
    | Start(i: nat)
    | ListProviders(i: nat)
    | ListCredentials(i: nat)
    | Decide(i: nat)
    | Provide(i: nat, answered: bool)
    | Store(i: nat, row: nat, answered: bool)
    | Discover(i: nat, ok: bool)
    | Patch(i: nat, outcome: PatchOutcome)
    | Drop(i: nat, deleted: bool)
    | Fail(i: nat)
    | Settle(i: nat)

  // The hub may accept or refuse the catalog; a lost request throws past the cleanup.
  datatype PatchOutcome = Accepted | Refused | Lost

  predicate In(s: State, i: nat) {
    i < |s.flights|
  }

  predicate Enabled(s: State, step: Step) {
    match step
    case Call => true
    case Start(i) =>
      In(s, i) && s.flights[i].phase == Waiting && s.flights[i].after.Some? &&
      In(s, s.flights[i].after.value) && s.flights[s.flights[i].after.value].phase.Done?
    case ListProviders(i) => In(s, i) && s.flights[i].phase.Listing? && s.flights[i].phase.providerSeen.None?
    case ListCredentials(i) => In(s, i) && s.flights[i].phase.Listing? && s.flights[i].phase.rowsSeen.None?
    case Decide(i) =>
      && In(s, i) && s.flights[i].phase.Listing?
      && s.flights[i].phase.providerSeen.Some? && s.flights[i].phase.rowsSeen.Some?
    case Provide(i, _) => In(s, i) && s.flights[i].phase == Providing
    case Store(i, row, _) => In(s, i) && s.flights[i].phase == Storing && row !in s.rows
    case Discover(i, _) => In(s, i) && s.flights[i].phase.Discovering?
    case Patch(i, _) => In(s, i) && s.flights[i].phase.Patching?
    case Drop(i, _) => In(s, i) && s.flights[i].phase.Dropping?
    case Fail(i) =>
      In(s, i) && (s.flights[i].phase.Listing? || s.flights[i].phase == Providing || s.flights[i].phase == Storing)
    case Settle(i) => In(s, i) && s.flights[i].phase.Done? && s.queue == Some(i)
  }

  function Enter(s: State, i: nat, phase: Phase): State
    requires In(s, i)
  {
    s.(flights := s.flights[i := s.flights[i].(phase := phase)])
  }

  const BEGUN: Phase := Listing(None, None)

  // The rows a listing shows: those on a provider with the MCP plugin.
  function Visible(provider: Option<bool>, rows: set<nat>): set<nat> {
    if provider == Some(true) then rows else {}
  }

  function Next(s: State, step: Step): State
    requires Enabled(s, step)
  {
    match step
    case Call =>
      var flight := Flight(s.queue, if s.queue.None? then BEGUN else Waiting);
      s.(flights := s.flights + [flight], queue := Some(|s.flights|))
    case Start(i) => Enter(s, i, BEGUN)
    case ListProviders(i) => Enter(s, i, s.flights[i].phase.(providerSeen := Some(s.provider)))
    case ListCredentials(i) => Enter(s, i, s.flights[i].phase.(rowsSeen := Some(s.rows)))
    case Decide(i) =>
      var phase := s.flights[i].phase;
      Enter(s, i, if Visible(phase.providerSeen.value, phase.rowsSeen.value) != {} then Done(true) else Providing)
    case Provide(i, answered) =>
      var phase := if answered then Storing else Done(false);
      Enter(s, i, phase).(provider := if s.provider.Some? then s.provider else Some(true))
    case Store(i, row, answered) =>
      Enter(s, i, if answered then Discovering(row) else Done(false)).(rows := s.rows + {row})
    case Discover(i, ok) =>
      var row := s.flights[i].phase.row;
      Enter(s, i, if ok then Patching(row) else Dropping(row))
    case Patch(i, outcome) =>
      var row := s.flights[i].phase.row;
      Enter(s, i, if outcome.Accepted? then Done(true) else if outcome.Refused? then Dropping(row) else Done(false))
    case Drop(i, deleted) =>
      Enter(s, i, Done(false)).(rows := if deleted then s.rows - {s.flights[i].phase.row} else s.rows)
    case Fail(i) => Enter(s, i, Done(false))
    case Settle(i) => s.(queue := None)
  }

  // The state a run ends in; None when some step was not possible.
  function After(start: State, steps: seq<Step>): Option<State> {
    if steps == [] then Some(start)
    else
      var before := After(start, steps[..|steps| - 1]);
      var last := steps[|steps| - 1];
      if before.Some? && Enabled(before.value, last) then Some(Next(before.value, last)) else None
  }

  predicate Running(phase: Phase) {
    !phase.Waiting? && !phase.Done?
  }

  // Flights run in call order, one at a time.
  ghost predicate Queued(s: State) {
    && (s.queue.Some? ==> s.queue.value == |s.flights| - 1)
    && (s.queue.None? ==> forall i | 0 <= i < |s.flights| :: s.flights[i].phase.Done?)
    && (forall i | 0 <= i < |s.flights| && s.flights[i].phase.Waiting? :: i > 0 && s.flights[i].after == Some(i - 1))
    && (forall i, j | 0 <= j < i < |s.flights| && !s.flights[i].phase.Waiting? :: s.flights[j].phase.Done?)
  }

  // What the running flight knows about the hub, which nobody else changes meanwhile.
  ghost predicate Informed(s: State, phase: Phase) {
    match phase
    case Listing(providerSeen, rowsSeen) =>
      (providerSeen.Some? ==> providerSeen.value == s.provider) && (rowsSeen.Some? ==> rowsSeen.value == s.rows)
    case Providing => s.rows == {}
    case Storing => s.rows == {} && s.provider == Some(true)
    case Discovering(row) => s.rows == {row}
    case Patching(row) => s.rows == {row}
    case Dropping(row) => s.rows == {row}
    case _ => true
  }

  // The hub holds at most one Exa row, on a provider that lists it.
  ghost predicate Sound(provider: Option<bool>, rows: set<nat>) {
    provider != Some(false) && |rows| <= 1 && (rows != {} ==> provider == Some(true))
  }

  ghost predicate Inv(s: State) {
    && Queued(s)
    && Sound(s.provider, s.rows)
    && forall i | 0 <= i < |s.flights| :: Informed(s, s.flights[i].phase)
  }

  // A flight that runs, or may start, moves on.
  lemma QueuedEnter(s: State, i: nat, phase: Phase)
    requires Queued(s) && In(s, i) && !phase.Waiting?
    requires Running(s.flights[i].phase) || (s.flights[i].phase.Waiting? && s.flights[i - 1].phase.Done?)
    ensures Queued(Enter(s, i, phase))
  {
  }

  lemma QueuedStep(s: State, step: Step)
    requires Queued(s) && Enabled(s, step)
    ensures Queued(Next(s, step))
  {
    if !step.Call? && !step.Settle? {
      var t := Next(s, step);
      QueuedEnter(s, step.i, t.flights[step.i].phase);
      assert t.flights == Enter(s, step.i, t.flights[step.i].phase).flights && t.queue == s.queue;
    }
  }

  lemma HubStep(s: State, step: Step)
    requires Inv(s) && Enabled(s, step)
    ensures Sound(Next(s, step).provider, Next(s, step).rows)
  {
  }

  // Whoever is not moving either does not run or, being the one that runs, is the only one.
  lemma OthersWait(s: State, i: nat, j: nat)
    requires Queued(s) && i < |s.flights| && j < |s.flights| && i != j && Running(s.flights[i].phase)
    ensures !Running(s.flights[j].phase)
  {
  }

  lemma InformedStep(s: State, step: Step, j: nat)
    requires Inv(s) && Enabled(s, step) && j < |Next(s, step).flights|
    ensures Informed(Next(s, step), Next(s, step).flights[j].phase)
  {
    if step.Store? {
      assert s.rows + {step.row} == {step.row};
    } else if step.Provide? && s.provider.Some? {
      assert s.provider.value;
    }
    if !step.Call? && !step.Settle? && j != step.i && Running(s.flights[step.i].phase) {
      OthersWait(s, step.i, j);
    }
  }

  lemma StepKeeps(s: State, step: Step)
    requires Inv(s) && Enabled(s, step)
    ensures Inv(Next(s, step))
  {
    QueuedStep(s, step);
    HubStep(s, step);
    forall j | 0 <= j < |Next(s, step).flights| ensures Informed(Next(s, step), Next(s, step).flights[j].phase) {
      InformedStep(s, step, j);
    }
  }

  lemma {:induction false} RunIsQueued(start: State, steps: seq<Step>)
    requires Queued(start) && After(start, steps).Some?
    ensures Queued(After(start, steps).value)
  {
    if steps != [] {
      RunIsQueued(start, steps[..|steps| - 1]);
      QueuedStep(After(start, steps[..|steps| - 1]).value, steps[|steps| - 1]);
    }
  }

  function Fresh(provider: Option<bool>, rows: set<nat>): State {
    State(provider, rows, [], None)
  }

  /** In any interleaving of calls at most one ensure of the workspace runs at a time. */
  lemma OneEnsureAtATime(start: State, steps: seq<Step>, i: nat, j: nat)
    requires start == Fresh(start.provider, start.rows) && After(start, steps).Some?
    requires var flights := After(start, steps).value.flights;
      i < |flights| && j < |flights| && Running(flights[i].phase) && Running(flights[j].phase)
    ensures i == j
  {
    RunIsQueued(start, steps);
  }

  /** A failed or slow ensure never blocks the next: until every flight is done, one can move. */
  lemma NeverStuck(start: State, steps: seq<Step>, i: nat)
    requires start == Fresh(start.provider, start.rows) && After(start, steps).Some?
    requires i < |After(start, steps).value.flights| && !After(start, steps).value.flights[i].phase.Done?
    ensures exists step: Step :: !step.Call? && !step.Settle? && Enabled(After(start, steps).value, step)
  {
    RunIsQueued(start, steps);
    var s := After(start, steps).value;
    var k: int := i;
    while s.flights[k].phase.Waiting? && !s.flights[k - 1].phase.Done?
      invariant 0 <= k < |s.flights| && !s.flights[k].phase.Done?
      decreases k
    {
      k := k - 1;
    }
    CanMove(s, k);
  }

  lemma CanMove(s: State, k: nat)
    requires Queued(s) && k < |s.flights| && !s.flights[k].phase.Done?
    requires s.flights[k].phase.Waiting? ==> s.flights[k - 1].phase.Done?
    ensures exists step: Step :: !step.Call? && !step.Settle? && Enabled(s, step)
  {
    var phase := s.flights[k].phase;
    if phase.Waiting? {
      assert Enabled(s, Start(k));
    } else if phase.Listing? || phase == Providing || phase == Storing {
      assert Enabled(s, Fail(k));
    } else if phase.Discovering? {
      assert Enabled(s, Discover(k, true));
    } else if phase.Patching? {
      assert Enabled(s, Patch(k, Accepted));
    } else {
      assert Enabled(s, Drop(k, true));
    }
  }

  function Sum(flights: seq<Flight>, weigh: Phase -> nat): nat {
    if flights == [] then 0 else weigh(flights[0].phase) + Sum(flights[1..], weigh)
  }

  lemma {:induction false} SumUpdated(flights: seq<Flight>, i: nat, f: Flight, weigh: Phase -> nat)
    requires i < |flights|
    ensures Sum(flights[i := f], weigh) + weigh(flights[i].phase) == Sum(flights, weigh) + weigh(f.phase)
  {
    if i == 0 {
      assert flights[0 := f][1..] == flights[1..];
    } else {
      assert flights[i := f][1..] == flights[1..][i - 1 := f];
      SumUpdated(flights[1..], i - 1, f, weigh);
    }
  }

  lemma {:induction false} SumAppended(flights: seq<Flight>, f: Flight, weigh: Phase -> nat)
    ensures Sum(flights + [f], weigh) == Sum(flights, weigh) + weigh(f.phase)
  {
    if flights == [] {
      assert [f][1..] == [] && flights + [f] == [f];
    } else {
      assert (flights + [f])[1..] == flights[1..] + [f];
      SumAppended(flights[1..], f, weigh);
    }
  }

  // How many steps a flight still has before it, at most.
  function Rank(phase: Phase): nat {
    match phase
    case Waiting => 9
    case Listing(providerSeen, rowsSeen) =>
      6 + (if providerSeen.None? then 1 else 0) + if rowsSeen.None? then 1 else 0
    case Providing => 5
    case Storing => 4
    case Discovering(_) => 3
    case Patching(_) => 2
    case Dropping(_) => 1
    case Done(_) => 0
  }

  /** Every step but a call or its clearing brings the flights nearer to their end, so that they take at
      most nine steps for each call. */
  lemma StepsLowerRank(s: State, step: Step)
    requires Enabled(s, step) && !step.Call? && !step.Settle?
    ensures Sum(Next(s, step).flights, Rank) < Sum(s.flights, Rank)
  {
    var f := Next(s, step).flights[step.i];
    SumUpdated(s.flights, step.i, f, Rank);
    assert Next(s, step).flights == s.flights[step.i := f];
  }

  /** And they can always all end, whatever failed before, without another call. */
  lemma EveryFlightCanEnd(start: State, steps: seq<Step>) returns (more: seq<Step>)
    requires start == Fresh(start.provider, start.rows) && After(start, steps).Some?
    ensures steps <= more && forall k | |steps| <= k < |more| :: !more[k].Call? && !more[k].Settle?
    ensures After(start, more).Some? && forall f | f in After(start, more).value.flights :: f.phase.Done?
    decreases Sum(After(start, steps).value.flights, Rank)
  {
    var s := After(start, steps).value;
    more := steps;
    if i :| 0 <= i < |s.flights| && !s.flights[i].phase.Done? {
      NeverStuck(start, steps, i);
      var step: Step :| !step.Call? && !step.Settle? && Enabled(s, step);
      hide After;
      more := Then(start, steps, step);
      StepsLowerRank(s, step);
      more := EveryFlightCanEnd(start, more);
    }
  }

  lemma NewRow(rows: set<nat>) returns (row: nat)
    ensures row !in rows
  {
    var rest := rows;
    row := 0;
    while rest != {}
      invariant forall r | r in rows && r !in rest :: r < row
      decreases rest
    {
      var r :| r in rest;
      row := if r < row then row else r + 1;
      rest := rest - {r};
    }
  }

  /** The workspace never holds two Exa rows, however calls interleave and whatever requests fail. */
  lemma {:induction false} NeverTwoRows(start: State, steps: seq<Step>)
    requires start == Fresh(start.provider, start.rows) && Sound(start.provider, start.rows)
    requires After(start, steps).Some?
    ensures Inv(After(start, steps).value) && |After(start, steps).value.rows| <= 1
  {
    if steps != [] {
      NeverTwoRows(start, steps[..|steps| - 1]);
      StepKeeps(After(start, steps[..|steps| - 1]).value, steps[|steps| - 1]);
    }
  }

  // The requests after which nobody removes the row: its own answer or the patch's was lost, or the cleanup failed.
  predicate LeavesRow(step: Step) {
    (step.Store? && !step.answered) || (step.Patch? && step.outcome.Lost?) || (step.Drop? && !step.deleted)
  }

  predicate Adding(phase: Phase) {
    phase.Providing? || phase.Storing? || phase.Discovering? || phase.Patching? || phase.Dropping?
  }

  /** What a failed add leaves behind. No credential row, exactly unless it failed by one of these; and no
      provider row, exactly if it failed before its request for one, where there was none. */
  lemma FailedAddLeavesNothingIff(s: State, step: Step)
    requires Inv(s) && Enabled(s, step) && !step.Call? && !step.Settle?
    requires Adding(s.flights[step.i].phase) && Next(s, step).flights[step.i].phase == Done(false)
    ensures Next(s, step).rows == {} <==> !LeavesRow(step)
    ensures Next(s, step).provider.None? <==> step.Fail? && s.flights[step.i].phase.Providing? && s.provider.None?
  {
    assert Informed(s, s.flights[step.i].phase);
    if step.Store? {
      assert step.row in s.rows + {step.row};
    }
  }

  lemma Then(start: State, steps: seq<Step>, step: Step) returns (more: seq<Step>)
    requires After(start, steps).Some? && Enabled(After(start, steps).value, step)
    ensures more == steps + [step] && After(start, more) == Some(Next(After(start, steps).value, step))
  {
    more := steps + [step];
    assert more[..|more| - 1] == steps;
  }

  // An ensure alone on the workspace, at a phase, while the provider of that name carries another plugin.
  function Alone(s: State, phase: Phase): State {
    State(Some(false), s.rows, s.flights + [Flight(None, phase)], Some(|s.flights|))
  }

  lemma AloneMoves(start: State, steps: seq<Step>, s: State, a: Phase, step: Step, b: Phase) returns (more: seq<Step>)
    requires After(start, steps) == Some(Alone(s, a)) && Enabled(Alone(s, a), step)
    requires Next(Alone(s, a), step) == Enter(Alone(s, a), |s.flights|, b)
    ensures After(start, more) == Some(Alone(s, b)) && steps <= more
  {
    more := Then(start, steps, step);
    assert (s.flights + [Flight(None, a)])[|s.flights| := Flight(None, b)] == s.flights + [Flight(None, b)];
  }

  // It lists the hub and, as no row is visible, goes on to store one.
  lemma ForeignStores(start: State, steps: seq<Step>, s: State) returns (more: seq<Step>)
    requires After(start, steps) == Some(Alone(s, BEGUN))
    ensures After(start, more) == Some(Alone(s, Storing)) && steps <= more
  {
    hide After;
    var i := |s.flights|;
    more := AloneMoves(start, steps, s, BEGUN, ListProviders(i), Listing(Some(Some(false)), None));
    var listed := Listing(Some(Some(false)), Some(s.rows));
    more := AloneMoves(start, more, s, Listing(Some(Some(false)), None), ListCredentials(i), listed);
    more := AloneMoves(start, more, s, listed, Decide(i), Providing);
    more := AloneMoves(start, more, s, Providing, Provide(i, true), Storing);
  }

  lemma ForeignFinishes(start: State, steps: seq<Step>, s: State, row: nat) returns (more: seq<Step>)
    requires After(start, steps) == Some(Alone(s, Discovering(row)))
    ensures After(start, more) == Some(Alone(s, Done(true)).(queue := None)) && steps <= more
  {
    hide After;
    var i := |s.flights|;
    more := AloneMoves(start, steps, s, Discovering(row), Discover(i, true), Patching(row));
    more := AloneMoves(start, more, s, Patching(row), Patch(i, Accepted), Done(true));
    more := Then(start, more, Settle(i));
  }

  // One undisturbed ensure while the provider of that name carries another plugin.
  lemma ForeignProviderAddsRow(start: State, steps: seq<Step>) returns (more: seq<Step>)
    requires After(start, steps).Some? && After(start, steps).value.queue.None?
    requires After(start, steps).value.provider == Some(false)
    ensures After(start, more).Some? && After(start, more).value.queue.None? && steps + [Call] <= more
    ensures After(start, more).value.provider == Some(false)
    ensures |After(start, more).value.rows| == |After(start, steps).value.rows| + 1
  {
    hide After;
    var s := After(start, steps).value;
    var row := NewRow(s.rows);
    more := Then(start, steps, Call);
    more := ForeignStores(start, more, s);
    more := Then(start, more, Store(|s.flights|, row, true));
    assert (s.flights + [Flight(None, Storing)])[|s.flights| := Flight(None, Discovering(row))] ==
           s.flights + [Flight(None, Discovering(row))];
    more := ForeignFinishes(start, more, s.(rows := s.rows + {row}), row);
  }

  /** The condition on the provider is needed: where a provider of Exa's name carries another plugin,
      its rows are never listed and two ensures, one after the other, leave two rows. */
  lemma ForeignProviderHoldsTwoRows(start: State) returns (steps: seq<Step>)
    requires start == Fresh(Some(false), {})
    ensures After(start, steps).Some? && |After(start, steps).value.rows| == 2
  {
    steps := ForeignProviderAddsRow(start, []);
    steps := ForeignProviderAddsRow(start, steps);
  }

  // A flight that has stored a row, and has not dropped it.
  function Holds(phase: Phase): nat {
    if phase.Discovering? || phase.Patching? || phase.Dropping? || phase == Done(true) then 1 else 0
  }

  function Succeeded(phase: Phase): nat {
    if phase == Done(true) then 1 else 0
  }

  // The provider carries another plugin, and every listing has seen so.
  ghost predicate Foreign(s: State) {
    && s.provider == Some(false)
    && forall f | f in s.flights && f.phase.Listing? && f.phase.providerSeen.Some? ::
         f.phase.providerSeen.value == Some(false)
  }

  lemma ForeignStays(s: State, step: Step)
    requires Foreign(s) && Enabled(s, step)
    ensures Foreign(Next(s, step))
  {
  }

  /** There no flight takes an earlier row for its own: one that succeeds has patched a row that it stored. */
  lemma ForeignSucceedsByPatch(s: State, step: Step)
    requires Foreign(s) && Enabled(s, step) && !step.Call? && !step.Settle?
    requires Next(s, step).flights[step.i].phase == Done(true)
    ensures step.Patch? && Holds(s.flights[step.i].phase) == 1
  {
  }

  lemma ForeignHoldsRows(s: State, step: Step, base: nat)
    requires Foreign(s) && Enabled(s, step) && |s.rows| >= base + Sum(s.flights, Holds)
    ensures |Next(s, step).rows| >= base + Sum(Next(s, step).flights, Holds)
  {
    var t := Next(s, step);
    hide Holds, Foreign;
    if step.Call? {
      FreshHoldsNone(s);
      SumAppended(s.flights, t.flights[|s.flights|], Holds);
    } else if !step.Settle? {
      SumUpdated(s.flights, step.i, t.flights[step.i], Holds);
      assert t.flights == s.flights[step.i := t.flights[step.i]];
      RowsFollow(s, step);
    }
  }

  lemma FreshHoldsNone(s: State)
    ensures Holds(Next(s, Call).flights[|s.flights|].phase) == 0
  {
  }

  lemma RowsFollow(s: State, step: Step)
    requires Foreign(s) && Enabled(s, step) && !step.Call? && !step.Settle?
    ensures var t := Next(s, step);
      |t.rows| + Holds(s.flights[step.i].phase) >= |s.rows| + Holds(t.flights[step.i].phase)
  {
    if step.Drop? {
      OneRowLess(s.rows, s.flights[step.i].phase.row);
    } else if step.Store? {
      assert s.rows == s.rows + {step.row} - {step.row};
      assert |s.rows + {step.row}| == |s.rows| + 1;
    } else {
      assert Next(s, step).rows == s.rows;
    }
  }

  lemma OneRowLess(rows: set<nat>, row: nat)
    ensures |rows - {row}| + 1 >= |rows|
  {
    if row in rows {
      assert rows == rows - {row} + {row};
    }
  }

  lemma {:induction false} SumOfLess(flights: seq<Flight>)
    ensures Sum(flights, Succeeded) <= Sum(flights, Holds)
  {
    if flights != [] {
      SumOfLess(flights[1..]);
    }
  }

  /** In every run there, whatever interleaves and fails, each ensure that succeeds has left one more row. */
  lemma {:induction false} ForeignSuccessesAddRows(start: State, steps: seq<Step>)
    requires start == Fresh(Some(false), start.rows) && After(start, steps).Some?
    ensures var s := After(start, steps).value;
      && Foreign(s) && |s.rows| >= |start.rows| + Sum(s.flights, Holds)
      && |s.rows| >= |start.rows| + Sum(s.flights, Succeeded)
  {
    if steps != [] {
      var init, last := steps[..|steps| - 1], steps[|steps| - 1];
      ForeignSuccessesAddRows(start, init);
      var before := After(start, init).value;
      ForeignStays(before, last);
      ForeignHoldsRows(before, last, |start.rows|);
    }
    SumOfLess(After(start, steps).value.flights);
  }

  // The only flight, on a hub with Exa's own provider.
  function Only(phase: Phase, rows: set<nat>): State {
    State(Some(true), rows, [Flight(None, phase)], Some(0))
  }

  lemma OnlyMoves(steps: seq<Step>, a: Phase, rows: set<nat>, step: Step, b: Phase, rows': set<nat>)
    returns (more: seq<Step>)
    requires After(Fresh(None, {}), steps) == Some(Only(a, rows)) && Enabled(Only(a, rows), step)
    requires Next(Only(a, rows), step) == Only(b, rows')
    ensures After(Fresh(None, {}), more) == Some(Only(b, rows')) && more == steps + [step]
  {
    more := Then(Fresh(None, {}), steps, step);
  }

  // A first ensure on an empty hub, up to the store of its row.
  lemma FirstStores() returns (steps: seq<Step>)
    ensures After(Fresh(None, {}), steps) == Some(Only(Storing, {}))
  {
    var start := Fresh(None, {});
    var s := start.(flights := [Flight(None, BEGUN)], queue := Some(0));
    steps := Then(start, [], Call);
    hide After;
    assert Next(start, Call) == s;
    steps := Then(start, steps, ListProviders(0));
    steps := Then(start, steps, ListCredentials(0));
    steps := Then(start, steps, Decide(0));
    steps := Then(start, steps, Provide(0, true));
    assert After(start, steps).value.flights == [Flight(None, Storing)];
  }

  /** Each way to leave the row is taken by a run from an empty hub, and the add has failed there. */
  lemma FailedAddCanLeaveRow(row: nat, last: Step) returns (steps: seq<Step>)
    requires LeavesRow(last) && last.i == 0 && (last.Store? ==> last.row == row)
    ensures steps != [] && steps[|steps| - 1] == last
    ensures After(Fresh(None, {}), steps) == Some(Only(Done(false), {row}))
  {
    hide After;
    steps := FirstStores();
    assert {} + {row} == {row};
    if last.Store? {
      steps := OnlyMoves(steps, Storing, {}, last, Done(false), {row});
    } else {
      steps := OnlyMoves(steps, Storing, {}, Store(0, row, true), Discovering(row), {row});
      if last.Patch? {
        steps := OnlyMoves(steps, Discovering(row), {row}, Discover(0, true), Patching(row), {row});
        steps := OnlyMoves(steps, Patching(row), {row}, last, Done(false), {row});
      } else {
        steps := OnlyMoves(steps, Discovering(row), {row}, Discover(0, false), Dropping(row), {row});
        steps := OnlyMoves(steps, Dropping(row), {row}, last, Done(false), {row});
      }
    }
  }

  /** An add whose store is refused leaves the provider row that it made, on a hub that was empty. */
  lemma FailedAddCanLeaveProvider() returns (steps: seq<Step>)
    ensures After(Fresh(None, {}), steps) == Some(Only(Done(false), {}))
  {
    hide After;
    steps := FirstStores();
    steps := OnlyMoves(steps, Storing, {}, Fail(0), Done(false), {});
  }

  // Once an ensure has succeeded, the hub lists a row, and no later ensure adds or drops any.
  ghost predicate Succeeding(s: State) {
    (exists f :: f in s.flights && f.phase == Done(true)) ==>
      s.rows != {} && forall f | f in s.flights :: !Adding(f.phase)
  }

  lemma SucceedsWithRow(s: State, step: Step)
    requires Inv(s) && Enabled(s, step) && !step.Call? && !step.Settle?
    requires Next(s, step).flights[step.i].phase == Done(true)
    ensures Next(s, step).rows != {}
  {
    assert Informed(s, s.flights[step.i].phase);
  }

  lemma SucceedingStep(s: State, step: Step)
    requires Inv(s) && Succeeding(s) && Enabled(s, step)
    ensures Succeeding(Next(s, step))
  {
    var t := Next(s, step);
    if f :| f in t.flights && f.phase == Done(true) {
      if step.Call? {
        assert t.flights == s.flights + [t.flights[|s.flights|]];
      } else if !step.Settle? {
        SucceedingMove(s, step);
      }
    }
  }

  lemma SucceedingMove(s: State, step: Step)
    requires Inv(s) && Succeeding(s) && Enabled(s, step) && !step.Call? && !step.Settle?
    requires exists f :: f in Next(s, step).flights && f.phase == Done(true)
    ensures Next(s, step).rows != {} && forall f | f in Next(s, step).flights :: !Adding(f.phase)
  {
    var t := Next(s, step);
    var i := step.i;
    if t.flights[i].phase == Done(true) {
      SucceedsWithRow(s, step);
      forall j | 0 <= j < |t.flights| ensures !Adding(t.flights[j].phase) {
        if j != i {
          OthersWait(s, i, j);
        }
      }
    } else {
      SucceededEarlier(s, step);
    }
  }

  lemma SucceededEarlier(s: State, step: Step)
    requires Inv(s) && Succeeding(s) && Enabled(s, step) && !step.Call? && !step.Settle?
    requires Next(s, step).flights[step.i].phase != Done(true)
    requires exists f :: f in Next(s, step).flights && f.phase == Done(true)
    ensures Next(s, step).rows != {} && forall f | f in Next(s, step).flights :: !Adding(f.phase)
  {
    var t := Next(s, step);
    var i := step.i;
    var f :| f in t.flights && f.phase == Done(true);
    var j :| 0 <= j < |t.flights| && t.flights[j] == f;
    assert s.flights[j] == f && f in s.flights && s.flights[i] in s.flights;
    assert Informed(s, s.flights[i].phase);
    forall k | 0 <= k < |t.flights| ensures !Adding(t.flights[k].phase) {
      assert s.flights[k] in s.flights;
    }
  }

  /** A successful ensure leaves a listed row, and it stays: over every run from a sound hub, once some
      ensure has succeeded, the hub lists a row. */
  lemma {:induction false} SuccessLeavesListedRow(start: State, steps: seq<Step>)
    requires start == Fresh(start.provider, start.rows) && Sound(start.provider, start.rows)
    requires After(start, steps).Some?
    ensures var s := After(start, steps).value;
      Succeeding(s) && ((exists f :: f in s.flights && f.phase == Done(true)) ==> Visible(s.provider, s.rows) != {})
  {
    NeverTwoRows(start, steps);
    if steps != [] {
      var init, last := steps[..|steps| - 1], steps[|steps| - 1];
      SuccessLeavesListedRow(start, init);
      NeverTwoRows(start, init);
      SucceedingStep(After(start, init).value, last);
    }
  }

  // A request of flight i is refused or throws, or its answer is lost.
  predicate GoesWrong(step: Step, i: nat) {
    match step
    case Provide(j, answered) => j == i && !answered
    case Store(j, _, answered) => j == i && !answered
    case Discover(j, ok) => j == i && !ok
    case Patch(j, outcome) => j == i && !outcome.Accepted?
    case Fail(j) => j == i
    case _ => false
  }

  predicate Failing(phase: Phase) {
    phase.Dropping? || phase == Done(false)
  }

  lemma StepFails(s: State, step: Step, i: nat)
    requires Enabled(s, step) && i < |s.flights|
    ensures i < |Next(s, step).flights|
    ensures Failing(Next(s, step).flights[i].phase) <==> Failing(s.flights[i].phase) || GoesWrong(step, i)
  {
  }

  // Nothing goes wrong in a flight before it is called.
  lemma {:induction false} NothingWentWrong(start: State, steps: seq<Step>, i: nat)
    requires After(start, steps).Some? && i >= |After(start, steps).value.flights|
    ensures forall step | step in steps :: !GoesWrong(step, i)
  {
    if steps != [] {
      var init, last := steps[..|steps| - 1], steps[|steps| - 1];
      NothingWentWrong(start, init, i);
      forall step | step in steps ensures !GoesWrong(step, i) {
        assert step in init || step == last;
      }
    }
  }

  lemma {:induction false} FailingIff(start: State, steps: seq<Step>, i: nat)
    requires start == Fresh(start.provider, start.rows)
    requires After(start, steps).Some? && i < |After(start, steps).value.flights|
    ensures Failing(After(start, steps).value.flights[i].phase) <==> exists step :: step in steps && GoesWrong(step, i)
  {
    if steps != [] {
      var init, last := steps[..|steps| - 1], steps[|steps| - 1];
      var before := After(start, init).value;
      assert forall step :: step in steps <==> step in init || step == last;
      if i < |before.flights| {
        FailingIff(start, init, i);
        StepFails(before, last, i);
      } else {
        NothingWentWrong(start, init, i);
      }
    }
  }

  /** What an ensure reports is exact: over every run, one that has ended succeeded if and only if none of its
      requests was refused, threw or lost its answer. */
  lemma SucceedsIffNothingWentWrong(start: State, steps: seq<Step>, i: nat)
    requires start == Fresh(start.provider, start.rows)
    requires After(start, steps).Some? && i < |After(start, steps).value.flights|
    requires After(start, steps).value.flights[i].phase.Done?
    ensures After(start, steps).value.flights[i].phase.ok <==> !exists step :: step in steps && GoesWrong(step, i)
  {
    FailingIff(start, steps, i);
  }
}
