/** Each rule is needed: from every state like these, breaking it leaves a process that the record does not
    account for. */
module ProvisionerRules {
  import opened Options
  import opened AllocationRecord
  import opened Provisioner
  import opened ProvisionerSafety
  import opened ProvisionerLimits
  import opened ProvisionerProgress

  // The record accounts for something else, yet the process lives.
  ghost predicate Orphan(s: State, pid: nat) {
    pid in s.live && s.record.Some? &&
    (s.record.value.desired == Destroyed ||
     (s.record.value.externalRef.Some? && s.record.value.externalRef.value.pid != pid))
  }

  // An ensure of g that would start a unit.
  predicate Starts(s: State, sidecar: string, g: nat) {
    !EnsureDecision(s, sidecar, g).Refuse? && EnsureDecision(s, sidecar, g).record.externalRef.None?
  }

  function Observed(s: State, sidecar: string, g: nat): State
    requires Starts(s, sidecar, g)
  {
    s.(record := Some(EnsureDecision(s, sidecar, g).record))
  }

  // The unit recorded, and its ensure about to sweep.
  function Accepted(s: State, u: Unit): State {
    Stage(s.(record := Recording(s, u), missed := {}), 0, Listing(Some(u)))
  }

  lemma ObservedDecides(s: State, sidecar: string, g: nat)
    requires Starts(s, sidecar, g)
    ensures var record := EnsureDecision(s, sidecar, g).record;
      record == Record(record.allocationId, sidecar, g, Ensured, None)
    ensures var seen := Observed(s, sidecar, g);
      Starts(seen, sidecar, g) && Observed(seen, sidecar, g) == seen
    ensures forall u: Unit | u.generation == g ::
      Recording(Observed(s, sidecar, g), u) == Some(EnsureDecision(s, sidecar, g).record.(externalRef := Some(u)))
  {
  }

  // One ensure that starts a unit, alone, up to the sweep.
  lemma EnsureAlone(rules: set<Rule>, steps: seq<Step>, s: State, sidecar: string, u: Unit)
    returns (steps': seq<Step>, t: State)
    requires AtRest(rules, steps, s) && u.pid > 0 && u.pid !in s.spawned && Starts(s, sidecar, u.generation)
    requires forall rule | rule in rules :: Obeys(s, BeginEnsure(0, sidecar, u.generation), rule)
    ensures Run(rules, steps', t) && GoesOn(steps + [BeginEnsure(0, sidecar, u.generation)], steps')
    ensures t == Accepted(Started(Observed(s, sidecar, u.generation), u), u)
    ensures t.record == Some(EnsureDecision(s, sidecar, u.generation).record.(externalRef := Some(u)))
  {
    hide Run;
    var g := u.generation;
    ObservedDecides(s, sidecar, g);
    steps', t := Do(rules, steps, s, BeginEnsure(0, sidecar, g));
    assert t == Stage(Observed(s, sidecar, g), 0, Starting(g));
    steps', t := StartUnit(rules, steps', Observed(s, sidecar, g), 0, g, u.pid);
    steps', t := RecordUnit(rules, steps', Started(Observed(s, sidecar, g), u), 0, u);
  }

  // Once another unit is recorded, and no listed directory names it, a process is lost.
  lemma AcceptedLoses(s: State, sidecar: string, u: Unit, pid: nat)
    requires s.requests == map[] && Starts(s, sidecar, u.generation)
    requires pid in s.live && pid in s.spawned && pid != u.pid
    requires forall g | g in s.pidFiles && g > 0 && g != u.generation :: s.pidFiles[g] != pid
    requires Recording(Observed(s, sidecar, u.generation), u).Some?
    ensures var t := Accepted(Started(Observed(s, sidecar, u.generation), u), u); Lost(t, pid) && CleansUp(t)
  {
  }

  // A lost process whose replacement is recorded stays lost until the sweep is over.
  lemma RestsLost(rules: set<Rule>, steps: seq<Step>, s: State, pid: nat) returns (steps': seq<Step>, t: State)
    requires Run(rules, steps, s) && Lost(s, pid) && CleansUp(s) && s.record.Some? && s.record.value.externalRef.Some?
    ensures AtRest(rules, steps', t) && GoesOn(steps, steps') && Lost(t, pid) && Orphan(t, pid)
    ensures t.allocation == s.allocation
  {
    hide Run;
    steps', t := CanRest(rules, steps, s, pid);
  }

  /** Retry: wherever an ensured generation without a reference has a live filed process, because its record
      write failed, another ensure of it files its new pid over the old one, which is lost. */
  lemma RetryLosesProcess(steps: seq<Step>, s: State) returns (steps': seq<Step>, t: State)
    requires AtRest(ALL_RULES, steps, s) && s.record.Some?
    requires s.record.value.desired == Ensured && s.record.value.externalRef.None?
    requires s.record.value.generation in s.pidFiles && s.pidFiles[s.record.value.generation] in s.live
    ensures AtRest(ALL_RULES - {NoRetry}, steps', t)
    ensures GoesOn(steps + [BeginEnsure(0, s.record.value.sidecarId, s.record.value.generation)], steps')
    ensures var older := s.pidFiles[s.record.value.generation]; Lost(t, older) && Orphan(t, older)
  {
    var rules := ALL_RULES - {NoRetry};
    RunKeeps(ALL_RULES, steps, s);
    FewerRules(ALL_RULES, rules, Empty(s.allocation), steps, s);
    hide Run, Inv;
    var g, sidecar := s.record.value.generation, s.record.value.sidecarId;
    var pid := FreshPid(s.spawned);
    InvFiles(s);
    hide Lost, Starts;
    Restarts(s);
    ObservedDecides(s, sidecar, g);
    steps', t := EnsureAlone(rules, steps, s, sidecar, Unit(g, pid));
    AcceptedLoses(s, sidecar, Unit(g, pid), s.pidFiles[g]);
    steps', t := RestsLost(rules, steps', t, s.pidFiles[g]);
  }

  lemma Restarts(s: State)
    requires s.record.Some? && s.record.value.desired == Ensured && s.record.value.externalRef.None?
    ensures Starts(s, s.record.value.sidecarId, s.record.value.generation)
  {
  }

  // Pids filed under different generations differ.
  lemma InvFiles(s: State)
    requires Inv(s)
    ensures forall g | g in s.pidFiles :: g >= 1 && s.pidFiles[g] in s.spawned && s.spawned[s.pidFiles[g]] == g
  {
  }

  /** Overlap: wherever an ensure would start a unit, two overlapping ones both do; one files its pid over
      the other's, which is lost. */
  lemma OverlapLosesProcess(steps: seq<Step>, s: State, i: nat, j: nat, sidecar: string, g: nat)
    returns (steps': seq<Step>, t: State, pid: nat)
    requires AtRest(ALL_RULES, steps, s) && Starts(s, sidecar, g) && g >= 1 && g !in s.unrecorded && i != j
    ensures AtRest(ALL_RULES - {NoOverlap}, steps', t)
    ensures GoesOn(steps + [BeginEnsure(i, sidecar, g), BeginEnsure(j, sidecar, g)], steps')
    ensures pid !in s.spawned && Lost(t, pid) && Orphan(t, pid) && t.allocation == s.allocation
  {
    var rules := ALL_RULES - {NoOverlap};
    RunKeeps(ALL_RULES, steps, s);
    InvFiles(s);
    FewerRules(ALL_RULES, rules, Empty(s.allocation), steps, s);
    hide Run, Inv, GoesOn, Lost;
    pid := FreshPid(s.spawned);
    var second := FreshPid(s.spawned[pid := g]);
    var a, b := Unit(g, pid), Unit(g, second);
    var begun := steps + [BeginEnsure(i, sidecar, g), BeginEnsure(j, sidecar, g)];
    var started, recorded;
    started, t := BothStart(rules, steps, s, i, j, sidecar, a, b);
    ObservedDecides(s, sidecar, g);
    hide Starts;
    recorded, t := BothRecord(rules, started, BothStarted(s, sidecar, a, b), i, j, a, b);
    BothLose(s, BothStarted(s, sidecar, a, b), i, j, t.record, a, b);
    steps', t := RestsLost(rules, recorded, t, pid);
    GoesFurtherOn(begun, started, recorded);
    GoesFurtherOn(begun, recorded, steps');
  }

  function BothStarted(s: State, sidecar: string, a: Unit, b: Unit): State
    requires Starts(s, sidecar, a.generation)
  {
    Started(Started(Observed(s, sidecar, a.generation), a), b)
  }

  lemma BothLose(s: State, both: State, i: nat, j: nat, record: Option<UnitRecord>, a: Unit, b: Unit)
    requires s.requests == both.requests == map[] && i != j
    requires a.pid in both.live && a.pid in both.spawned && a.pid != b.pid
    requires both.pidFiles == s.pidFiles[a.generation := a.pid][b.generation := b.pid] && a.generation == b.generation
    requires a.pid !in s.spawned && forall g | g in s.pidFiles :: s.pidFiles[g] in s.spawned
    requires record.Some? && record.value.externalRef == Some(b)
    ensures var t := Both(both.(record := record, missed := {}), i, j, Listing(Some(a)), Listing(Some(b)));
      Lost(t, a.pid) && CleansUp(t)
  {
  }

  // Two ensures, each at its phase.
  function Both(s: State, i: nat, j: nat, a: Phase, b: Phase): State {
    Stage(Stage(s, i, a), j, b)
  }

  lemma BothCommute(s: State, i: nat, j: nat, a: Phase, b: Phase)
    requires i != j
    ensures Both(s, i, j, a, b) == Both(s, j, i, b, a)
  {
  }

  lemma BothStart(rules: set<Rule>, steps: seq<Step>, s: State, i: nat, j: nat, sidecar: string, a: Unit, b: Unit)
    returns (steps': seq<Step>, t: State)
    requires NoOverlap !in rules && AtRest(rules, steps, s) && i != j && a.generation == b.generation >= 1
    requires Starts(s, sidecar, a.generation) && a.generation !in s.unrecorded
    requires a.pid > 0 && b.pid > 0 && a.pid != b.pid && a.pid !in s.spawned && b.pid !in s.spawned
    ensures Run(rules, steps', t)
    ensures GoesOn(steps + [BeginEnsure(i, sidecar, a.generation), BeginEnsure(j, sidecar, a.generation)], steps')
    ensures t == Both(BothStarted(s, sidecar, a, b), i, j, Written(a), Written(b))
  {
    hide Run;
    var g := a.generation;
    var seen, one := Observed(s, sidecar, g), Started(Observed(s, sidecar, g), a);
    ObservedDecides(s, sidecar, g);
    steps', t := Do(rules, steps, s, BeginEnsure(i, sidecar, g));
    steps', t := Do(rules, steps', t, BeginEnsure(j, sidecar, g));
    hide Next, Enabled;
    assert t == Both(seen, i, j, Starting(g), Starting(g));
    BothCommute(seen, i, j, Starting(g), Starting(g));
    steps', t := StartUnit(rules, steps', Stage(seen, j, Starting(g)), i, g, a.pid);
    BothCommute(one, i, j, Written(a), Starting(g));
    assert t == Both(one, i, j, Written(a), Starting(g));
    steps', t := StartUnit(rules, steps', Stage(one, i, Written(a)), j, g, b.pid);
    assert t == Both(Started(one, b), i, j, Written(a), Written(b));
  }

  lemma BothRecord(rules: set<Rule>, steps: seq<Step>, s: State, i: nat, j: nat, a: Unit, b: Unit)
    returns (steps': seq<Step>, t: State)
    requires Run(rules, steps, Both(s, i, j, Written(a), Written(b))) && i != j && a.generation == b.generation
    requires s.record.Some? && s.record.value.desired == Ensured && s.record.value.generation == a.generation
    ensures Run(rules, steps', t) && GoesOn(steps, steps')
    ensures t == Both(s.(record := Some(s.record.value.(externalRef := Some(b))), missed := {}), i, j,
                      Listing(Some(a)), Listing(Some(b)))
  {
    hide Run;
    BothCommute(s, i, j, Written(a), Written(b));
    steps', t := RecordUnit(rules, steps, Stage(s, j, Written(b)), i, a);
    var once := s.(record := Recording(s, a), missed := {});
    BothCommute(once, i, j, Listing(Some(a)), Written(b));
    steps', t := RecordUnit(rules, steps', Stage(once, i, Listing(Some(a))), j, b);
  }

  ghost predicate TracedUnit(s: State, u: Unit) {
    u.pid in s.spawned && s.spawned[u.pid] == u.generation
  }

  ghost predicate FilesTraced(s: State) {
    s.live <= s.spawned.Keys && forall g | g in s.pidFiles :: TracedUnit(s, Unit(g, s.pidFiles[g]))
  }

  ghost predicate PhaseTraced(s: State, phase: Phase) {
    phase.Spawned? || phase.Written? ==> TracedUnit(s, phase.unit)
  }

  // In every run, whatever its rules, a filed or recorded pid was spawned for its generation.
  ghost predicate Traced(s: State) {
    && FilesTraced(s)
    && (s.record.Some? && s.record.value.externalRef.Some? ==> TracedUnit(s, s.record.value.externalRef.value))
    && forall id | id in s.requests :: PhaseTraced(s, s.requests[id].phase)
  }

  lemma FilesTrace(s: State, step: Step)
    requires Traced(s) && Enabled(s, step)
    ensures FilesTraced(Next(s, step))
  {
  }

  lemma UnitsStayTraced(s: State, step: Step, u: Unit)
    requires Enabled(s, step) && TracedUnit(s, u)
    ensures TracedUnit(Next(s, step), u)
  {
  }

  lemma RecordTraces(s: State, step: Step)
    requires Traced(s) && Enabled(s, step)
    ensures var t := Next(s, step);
      t.record.Some? && t.record.value.externalRef.Some? ==> TracedUnit(s, t.record.value.externalRef.value)
  {
  }

  lemma OwnTraces(s: State, step: Step)
    requires Traced(s) && Enabled(s, step) && !step.Die? && step.id in Next(s, step).requests
    ensures PhaseTraced(Next(s, step), Next(s, step).requests[step.id].phase)
  {
  }

  lemma StepTraces(s: State, step: Step)
    requires Traced(s) && Enabled(s, step)
    ensures Traced(Next(s, step))
  {
    FilesTrace(s, step);
    RecordTraces(s, step);
    hide Next, Enabled, FilesTraced, TracedUnit;
    forall u | TracedUnit(s, u) ensures TracedUnit(Next(s, step), u) {
      UnitsStayTraced(s, step, u);
    }
    forall id | id in Next(s, step).requests ensures PhaseTraced(Next(s, step), Next(s, step).requests[id].phase) {
      if step.Die? || step.id != id {
        OthersCame(s, step, id);
      } else {
        OwnTraces(s, step);
      }
    }
  }

  lemma OthersCame(s: State, step: Step, id: nat)
    requires Enabled(s, step) && (step.Die? || step.id != id) && id in Next(s, step).requests
    ensures id in s.requests && Next(s, step).requests[id] == s.requests[id]
  {
  }

  lemma {:induction false} RunTraces(rules: set<Rule>, s: State, steps: seq<Step>, end: State)
    requires Traced(s) && Continues(rules, s, steps, end)
    ensures Traced(end)
    decreases |steps|
  {
    hide Traced;
    if steps != [] {
      var init, last := steps[..|steps| - 1], steps[|steps| - 1];
      var before :| Continues(rules, s, init, before) && Moves(rules, before, last, end);
      RunTraces(rules, s, init, before);
      StepTraces(before, last);
    }
  }

  /** Generation 0: wherever a live unit of generation 0 is recorded, the next ensure that starts a unit
      loses it, as no sweep lists its directory. */
  lemma GenerationZeroIsNeverSwept(steps: seq<Step>, s: State, sidecar: string, g: nat)
    returns (steps': seq<Step>, t: State)
    requires AtRest(ALL_RULES - {Listable}, steps, s) && s.record.Some? && s.record.value.externalRef.Some?
    requires s.record.value.externalRef.value.generation == 0 && s.record.value.externalRef.value.pid in s.live
    requires Starts(s, sidecar, g) && g !in s.unrecorded
    ensures AtRest(ALL_RULES - {Listable}, steps', t) && GoesOn(steps + [BeginEnsure(0, sidecar, g)], steps')
    ensures var pid := s.record.value.externalRef.value.pid; Lost(t, pid) && Orphan(t, pid)
  {
    var rules, pid := ALL_RULES - {Listable}, s.record.value.externalRef.value.pid;
    RunTraces(rules, Empty(s.allocation), steps, s);
    hide Run;
    var next := FreshPid(s.spawned);
    hide Lost;
    ObservedDecides(s, sidecar, g);
    steps', t := EnsureAlone(rules, steps, s, sidecar, Unit(g, next));
    AcceptedLoses(s, sidecar, Unit(g, next), pid);
    steps', t := RestsLost(rules, steps', t, pid);
  }

  /** Foreign reference: wherever a live unit is recorded, a destroy that names another one confirms its
      cleanup while the recorded unit lives on. */
  lemma ForeignRefLeavesUnit(steps: seq<Step>, s: State, sidecar: string, g: nat, other: Unit)
    returns (steps': seq<Step>, t: State)
    requires AtRest(ALL_RULES - {NoForeignRef}, steps, s) && s.record.Some? && s.record.value.externalRef.Some?
    requires s.record.value.externalRef.value.pid in s.live && other.pid != s.record.value.externalRef.value.pid
    requires !DestroyDecision(s, sidecar, g).Refuse?
    ensures AtRest(ALL_RULES - {NoForeignRef}, steps', t)
    ensures GoesOn(steps + [BeginDestroy(0, sidecar, g, Some(other))], steps')
    ensures Orphan(t, s.record.value.externalRef.value.pid)
  {
    hide Run;
    var rules := ALL_RULES - {NoForeignRef};
    var gone := s.(record := Some(DestroyDecision(s, sidecar, g).record));
    steps', t := Do(rules, steps, s, BeginDestroy(0, sidecar, g, Some(other)));
    assert t == Stage(gone, 0, Stopping([other]), false);
    steps', t := Stop(rules, steps', gone, 0, other, false);
  }

  /** Failed listing: wherever an ensure would start a unit, its sweep can fail to list, and every process
      that was alive lives on beside the recorded unit. */
  lemma FailedListLeavesUnits(steps: seq<Step>, s: State, sidecar: string, g: nat)
    returns (steps': seq<Step>, t: State)
    requires AtRest(ALL_RULES - {NoFailedList}, steps, s) && Starts(s, sidecar, g) && g >= 1 && g !in s.unrecorded
    ensures AtRest(ALL_RULES - {NoFailedList}, steps', t) && steps' != [] && steps'[|steps'| - 1] == FailList(0)
    ensures GoesOn(steps + [BeginEnsure(0, sidecar, g)], steps'[..|steps'| - 1])
    ensures forall pid | pid in s.live :: Orphan(t, pid)
  {
    var rules := ALL_RULES - {NoFailedList};
    RunTraces(rules, Empty(s.allocation), steps, s);
    hide Run;
    var next := FreshPid(s.spawned);
    var u := Unit(g, next);
    steps', t := EnsureAlone(rules, steps, s, sidecar, u);
    var before, kept := t, steps';
    steps', t := Do(rules, steps', t, FailList(0));
    assert steps'[..|steps'| - 1] == kept;
    FailListEnds(Started(Observed(s, sidecar, g), u), u);
    assert t == Next(before, FailList(0));
  }

  lemma FailListEnds(s: State, u: Unit)
    requires s.requests == map[]
    ensures var t := Next(Accepted(s, u), FailList(0));
      t.requests == map[] && t.live == s.live && t.record == Recording(s, u)
  {
  }

  lemma Unstage(s: State, id: nat, phase: Phase, isEnsure: bool := true)
    requires id !in s.requests
    ensures Leave(Stage(s, id, phase, isEnsure), id) == s
  {
  }

  lemma Stop(rules: set<Rule>, steps: seq<Step>, s: State, id: nat, u: Unit, isEnsure: bool := true)
    returns (steps': seq<Step>, t: State)
    requires Run(rules, steps, Stage(s, id, Stopping([u]), isEnsure)) && id !in s.requests
    ensures Run(rules, steps', t) && GoesOn(steps, steps')
    ensures t == s.(live := s.live - {u.pid}, dirs := s.dirs - {u.generation}, pidFiles := s.pidFiles - {u.generation})
  {
    hide Run;
    steps', t := Go(rules, steps, Stage(s, id, Stopping([u]), isEnsure), Terminate(id));
    Restage(s, id, Stopping([u]), Removing(u, []), isEnsure);
    steps', t := Go(rules, steps', t, RemoveDir(id));
    Restage(s, id, Removing(u, []), Stopping([]), isEnsure);
    steps', t := Go(rules, steps', t, Finish(id));
    Unstage(s, id, Stopping([]), isEnsure);
  }

  // Reading the one listed directory.
  lemma ReadOne(rules: set<Rule>, steps: seq<Step>, s: State, id: nat, keep: Unit, g: nat)
    returns (steps': seq<Step>, t: State)
    requires Run(rules, steps, Stage(s, id, Listing(Some(keep))))
    requires Listed(s.dirs) == {g} && g in s.pidFiles && s.pidFiles[g] in s.live
    ensures Run(rules, steps', t)
    ensures t == Stage(s, id, Reading(Some(keep), {}, [Unit(g, s.pidFiles[g])]))
  {
    hide Run;
    steps', t := Go(rules, steps, Stage(s, id, Listing(Some(keep))), ReadDir(id));
    Restage(s, id, Listing(Some(keep)), Reading(Some(keep), {g}, []));
    steps', t := Go(rules, steps', t, ReadPid(id, g));
    assert {g} - {g} == {};
    assert [] + [Unit(g, s.pidFiles[g])] == [Unit(g, s.pidFiles[g])];
    Restage(s, id, Reading(Some(keep), {g}, []), Reading(Some(keep), {}, [Unit(g, s.pidFiles[g])]));
  }

  // A sweep that finds its own unit and ends.
  lemma SweepOwn(rules: set<Rule>, steps: seq<Step>, s: State, id: nat, keep: Unit)
    returns (steps': seq<Step>, t: State)
    requires Run(rules, steps, Stage(s, id, Listing(Some(keep)))) && id !in s.requests
    requires Listed(s.dirs) == {keep.generation}
    requires keep.generation in s.pidFiles && s.pidFiles[keep.generation] == keep.pid && keep.pid in s.live
    ensures Run(rules, steps', t) && t == s
  {
    hide Run;
    steps', t := ReadOne(rules, steps, s, id, keep, keep.generation);
    steps', t := Go(rules, steps', t, DoneReading(id));
    assert Except([keep], Some(keep)) == [];
    Restage(s, id, Reading(Some(keep), {}, [keep]), Stopping([]));
    steps', t := Go(rules, steps', t, Finish(id));
    Unstage(s, id, Stopping([]));
  }

  // A sweep of an empty directory listing.
  lemma SweepNothing(rules: set<Rule>, steps: seq<Step>, s: State, id: nat, keep: Unit)
    returns (steps': seq<Step>, t: State)
    requires Run(rules, steps, Stage(s, id, Listing(Some(keep)))) && id !in s.requests
    requires Listed(s.dirs) == {}
    ensures Run(rules, steps', t) && t == s
  {
    hide Run;
    steps', t := Go(rules, steps, Stage(s, id, Listing(Some(keep))), ReadDir(id));
    Restage(s, id, Listing(Some(keep)), Reading(Some(keep), {}, []));
    steps', t := Go(rules, steps', t, DoneReading(id));
    Restage(s, id, Reading(Some(keep), {}, []), Stopping([]));
    steps', t := Go(rules, steps', t, Finish(id));
    Unstage(s, id, Stopping([]));
  }

  // Generation 1 ensured as process 10, at rest.
  const FIRST: Unit := Unit(1, 10)
  const ONE: State :=
    State("", Some(Record("", "s", 1, Ensured, Some(FIRST))), {1}, map[1 := 10], {10}, map[],
          map[10 := 1], map[1 := 10], {}, {})

  lemma EnsuredOnce(rules: set<Rule>) returns (steps: seq<Step>, s: State)
    ensures AtRest(rules, steps, s) && s == ONE
  {
    hide Run;
    Nothing(rules, "");
    steps, s := EnsureAlone(rules, [], Empty(""), "s", FIRST);
    assert s == Stage(ONE, 0, Listing(Some(FIRST)));
    assert Listed(ONE.dirs) == {1};
    steps, s := SweepOwn(rules, steps, ONE, 0, FIRST);
  }

  // The unit of generation 1 filed, and its record write failed.
  lemma FailedOnce(rules: set<Rule>) returns (steps: seq<Step>, s: State)
    ensures AtRest(rules, steps, s)
    ensures s == ONE.(record := Some(Record("", "s", 1, Ensured, None)), unrecorded := {1})
  {
    hide Run;
    var seen := Empty("").(record := Some(Record("", "s", 1, Ensured, None)));
    Nothing(rules, "");
    steps, s := Do(rules, [], Empty(""), BeginEnsure(0, "s", 1));
    assert s == Stage(seen, 0, Starting(1));
    steps, s := StartUnit(rules, steps, seen, 0, 1, 10);
    steps, s := Go(rules, steps, s, FailRecord(0));
    Unstage(Started(seen, FIRST), 0, Written(FIRST));
    assert Started(seen, FIRST) == ONE.(record := seen.record);
  }

  // Generation 0 ensured as process 10, at rest.
  const ZERO: Unit := Unit(0, 10)
  const ZEROTH: State :=
    State("", Some(Record("", "s", 0, Ensured, Some(ZERO))), {0}, map[0 := 10], {10}, map[],
          map[10 := 0], map[0 := 10], {}, {})

  lemma ZeroEnsured(rules: set<Rule>) returns (steps: seq<Step>, s: State)
    requires Listable !in rules
    ensures AtRest(rules, steps, s) && s == ZEROTH
  {
    hide Run;
    Nothing(rules, "");
    steps, s := EnsureAlone(rules, [], Empty(""), "s", ZERO);
    assert s == Stage(ZEROTH, 0, Listing(Some(ZERO)));
    assert Listed(ZEROTH.dirs) == {};
    steps, s := SweepNothing(rules, steps, ZEROTH, 0, ZERO);
  }

  /** None of the five rules can be dropped: without it, some run at rest keeps a process the record
      does not account for. */
  lemma EveryRuleIsNeeded(rule: Rule)
    ensures exists steps, s, pid :: AtRest(ALL_RULES - {rule}, steps, s) && Orphan(s, pid)
  {
    hide Run;
    var steps, s, pid := [], Empty(""), 10;
    match rule
    case NoOverlap =>
      Nothing(ALL_RULES, "");
      steps, s, pid := OverlapLosesProcess([], s, 0, 1, "s", 1);
    case Listable =>
      steps, s := ZeroEnsured(ALL_RULES - {Listable});
      steps, s := GenerationZeroIsNeverSwept(steps, s, "s", 1);
    case NoRetry =>
      steps, s := FailedOnce(ALL_RULES);
      steps, s := RetryLosesProcess(steps, s);
    case NoForeignRef =>
      steps, s := EnsuredOnce(ALL_RULES - {NoForeignRef});
      steps, s := ForeignRefLeavesUnit(steps, s, "s", 1, Unit(1, 99));
    case NoFailedList =>
      steps, s := EnsuredOnce(ALL_RULES - {NoFailedList});
      steps, s := FailedListLeavesUnits(steps, s, "s", 2);
    assert AtRest(ALL_RULES - {rule}, steps, s) && Orphan(s, pid);
  }
}
