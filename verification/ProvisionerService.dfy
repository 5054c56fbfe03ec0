/** What requests do for their callers: an ensure keeps the recorded unit alive, or starts one; a destroy
    leaves neither the process nor its directory. */
module ProvisionerService {
  import opened Options
  import opened AllocationRecord
  import opened Provisioner
  import opened ProvisionerSafety
  import opened ProvisionerLimits
  import opened ProvisionerProgress
  import opened ProvisionerRules

  // The unit that an ensured record names.
  ghost function Served(s: State): Option<Unit> {
    if s.record.Some? && s.record.value.desired == Ensured then s.record.value.externalRef else None
  }

  // An ensure in this phase will not stop the unit.
  ghost predicate SparesIn(phase: Phase, u: Unit) {
    match phase
    case Spawned(v) => v.pid != u.pid
    case Aborting(v) => v.pid != u.pid
    case Written(v) => v.pid != u.pid
    case Listing(keep) => keep == Some(u)
    case Reading(keep, _, _) => keep == Some(u)
    case Stopping(queue) => forall v | v in queue :: v.pid != u.pid
    case Removing(_, queue) => forall v | v in queue :: v.pid != u.pid
    case _ => true
  }

  ghost predicate Spares(s: State) {
    Served(s).Some? ==>
      forall id | id in s.requests && s.requests[id].isEnsure :: SparesIn(s.requests[id].phase, Served(s).value)
  }

  // The unit that is served after a step was served before it, unless this step recorded it.
  lemma ServedComes(s: State, step: Step)
    requires Inv(s) && Enabled(s, step) && Served(Next(s, step)).Some?
    ensures var u := Served(Next(s, step)).value;
      Served(s) == Some(u) || (step.RecordStarted? && s.requests[step.id].phase == Written(u))
  {
    hide Inv;
  }

  lemma OwnSpares(s: State, step: Step)
    requires Inv(s) && Spares(s) && Enabled(s, step) && !step.Die?
    requires step.id in s.requests && step.id in Next(s, step).requests && s.requests[step.id].isEnsure
    requires Served(s).Some? && Served(Next(s, step)) == Served(s)
    ensures SparesIn(Next(s, step).requests[step.id].phase, Served(s).value)
  {
    assert PhaseOk(s, s.requests[step.id]) && Known(s, Served(s).value);
    hide Inv;
    OwnPhaseSpares(s, step, Served(s).value);
  }

  lemma OwnPhaseSpares(s: State, step: Step, u: Unit)
    requires Enabled(s, step) && !step.Die? && step.id in s.requests && step.id in Next(s, step).requests
    requires PhaseOk(s, s.requests[step.id]) && s.requests[step.id].isEnsure && Known(s, u)
    requires SparesIn(s.requests[step.id].phase, u) && Served(Next(s, step)) == Some(u)
    ensures SparesIn(Next(s, step).requests[step.id].phase, u)
  {
    hide Open, EnsureDecision, DestroyDecision, Overlooked;
  }

  // An ensure that begins while a unit is served keeps it; the one that recorded it does too.
  lemma BeginnerSpares(s: State, step: Step)
    requires Inv(s) && Enabled(s, step) && Served(Next(s, step)).Some?
    requires (step.BeginEnsure? && Served(s) == Served(Next(s, step))) ||
             (step.RecordStarted? && s.requests[step.id].phase == Written(Served(Next(s, step)).value))
    ensures step.id in Next(s, step).requests &&
            SparesIn(Next(s, step).requests[step.id].phase, Served(Next(s, step)).value)
  {
  }

  lemma OnlyEnsure(s: State, step: Step, id: nat)
    requires Inv(s) && Enabled(s, step) && step.RecordStarted? && id in Next(s, step).requests
    requires Next(s, step).requests[id].isEnsure
    ensures id == step.id
  {
    if id != step.id {
      OthersCame(s, step, id);
    }
  }

  lemma NewEnsure(s: State, step: Step, id: nat)
    requires Enabled(s, step) && id in Next(s, step).requests && Next(s, step).requests[id].isEnsure
    ensures (id in s.requests && s.requests[id].isEnsure) || (step.BeginEnsure? && step.id == id)
  {
  }

  lemma StepSpares(s: State, step: Step)
    requires Inv(s) && Spares(s) && Enabled(s, step)
    ensures Spares(Next(s, step))
  {
    var t := Next(s, step);
    if Served(t).Some? {
      ServedComes(s, step);
      hide Next, Enabled, Inv, SparesIn;
      var u := Served(t).value;
      forall id | id in t.requests && t.requests[id].isEnsure ensures SparesIn(t.requests[id].phase, u) {
        NewEnsure(s, step, id);
        if step.RecordStarted? && s.requests[step.id].phase == Written(u) {
          OnlyEnsure(s, step, id);
          BeginnerSpares(s, step);
        } else if step.Die? || step.id != id {
          OthersCame(s, step, id);
        } else if id in s.requests {
          OwnSpares(s, step);
        } else {
          BeginnerSpares(s, step);
        }
      }
    }
  }

  lemma {:induction false} RunSpares(rules: set<Rule>, s: State, steps: seq<Step>, end: State)
    requires CALLER_RULES <= rules && Inv(s) && Spares(s) && Continues(rules, s, steps, end)
    ensures Inv(end) && Spares(end)
    decreases |steps|
  {
    hide Inv, Spares;
    if steps != [] {
      var init, last := steps[..|steps| - 1], steps[|steps| - 1];
      var before :| Continues(rules, s, init, before) && Moves(rules, before, last, end);
      RunSpares(rules, s, init, before);
      hide Continues;
      StepKeeps(before, last);
      StepSpares(before, last);
    }
  }

  lemma SparedLives(s: State, step: Step)
    requires Spares(s) && Enabled(s, step) && !step.Die? && step.id in s.requests && s.requests[step.id].isEnsure
    requires Served(s).Some? && Served(s).value.pid in s.live
    ensures Served(s).value.pid in Next(s, step).live
  {
  }

  /** In every disciplined run, listings failing or not, no step of an ensure stops the unit that an ensured
      record names. */
  lemma EnsureSparesRecordedUnit(steps: seq<Step>, s: State, step: Step)
    requires Run(CALLER_RULES, steps, s) && Enabled(s, step) && !step.Die?
    requires step.id in s.requests && s.requests[step.id].isEnsure
    requires Served(s).Some? && Served(s).value.pid in s.live
    ensures Served(s).value.pid in Next(s, step).live
  {
    RunSpares(CALLER_RULES, Empty(s.allocation), steps, s);
    SparedLives(s, step);
  }

  // One ensure alone: what is served lives, and so does what it has started.
  ghost predicate Serving(s: State, id: nat) {
    && Inv(s) && Spares(s) && s.requests.Keys <= {id} && (id in s.requests ==> s.requests[id].isEnsure)
    && (Served(s).Some? ==> Served(s).value.pid in s.live)
    && (id in s.requests && (s.requests[id].phase.Spawned? || s.requests[id].phase.Written?) ==>
          s.requests[id].phase.unit.pid in s.live)
  }

  lemma ServingLives(s: State, step: Step, id: nat)
    requires Serving(s, id) && Enabled(s, step) && Owned(step, id) && id in s.requests
    ensures var t := Next(s, step);
      && t.requests.Keys <= {id} && (id in t.requests ==> t.requests[id].isEnsure)
      && (Served(t).Some? ==> Served(t).value.pid in t.live)
      && (id in t.requests && (t.requests[id].phase.Spawned? || t.requests[id].phase.Written?) ==>
            t.requests[id].phase.unit.pid in t.live)
  {
    hide Inv, DecideEnsure, DecideDestroy, DecideRecord, Overlooked;
    if Served(Next(s, step)).Some? {
      ServedComes(s, step);
    }
  }

  lemma ServingStep(s: State, step: Step, id: nat)
    requires Serving(s, id) && Enabled(s, step) && Owned(step, id)
    ensures Serving(Next(s, step), id)
    ensures id in s.requests && Rank(s.requests[id].phase).0 <= 3 ==>
      Next(s, step).record == s.record && CleansUp(Next(s, step))
  {
    OwnedAreUnderway(s, step, id);
    ServingLives(s, step, id);
    hide Inv, Spares, Served, Lost;
    StepKeeps(s, step);
    StepSpares(s, step);
    if id in Next(s, step).requests {
      StepsLowerRank(s, step, id);
    }
    OwnedStepKeeps(s, step, id, 0);
  }

  lemma OwnedAreUnderway(s: State, step: Step, id: nat)
    requires Enabled(s, step) && Owned(step, id)
    ensures id in s.requests && Disciplined(s, step)
  {
  }

  lemma {:induction false} ServingGoesOn(s: State, id: nat, more: seq<Step>, t: State)
    requires Serving(s, id) && Continues({}, s, more, t) && forall step | step in more :: Owned(step, id)
    ensures Serving(t, id) && (CleansUp(s) ==> t.record == s.record && CleansUp(t))
    decreases |more|
  {
    hide Serving;
    if more != [] {
      var init, last := more[..|more| - 1], more[|more| - 1];
      var before :| Continues({}, s, init, before) && Moves({}, before, last, t);
      ServingGoesOn(s, id, init, before);
      hide Continues, Next, Enabled;
      assert last in more;
      OwnedAreUnderway(before, last, id);
      ServingStep(before, last, id);
    }
  }

  lemma EnsureBegins(s: State, begin: Step)
    requires Inv(s) && Spares(s) && s.requests == map[] && (Served(s).Some? ==> Served(s).value.pid in s.live)
    requires begin.BeginEnsure? && Enabled(s, begin) && Disciplined(s, begin)
    ensures var m := Next(s, begin);
      Serving(m, begin.id) && (Served(m).Some? ==> m.record == s.record && CleansUp(m))
  {
    StepKeeps(s, begin);
    StepSpares(s, begin);
  }

  /** An ensure that nothing disturbs, of a state at rest whose recorded unit lives: at each of its steps, to
      its end, whatever unit an ensured record names is alive; and where one was recorded for this generation
      already, the record stays as it was. */
  lemma UndisturbedEnsureServes(steps: seq<Step>, s: State, begin: Step, more: seq<Step>, t: State)
    requires AtRest(CALLER_RULES, steps, s) && (Served(s).Some? ==> Served(s).value.pid in s.live)
    requires begin.BeginEnsure? && Enabled(s, begin) && Disciplined(s, begin)
    requires Continues({}, Next(s, begin), more, t) && forall step | step in more :: Owned(step, begin.id)
    ensures Served(t).Some? ==> Served(t).value.pid in t.live
    ensures Served(Next(s, begin)).Some? ==> t.record == s.record
  {
    RunSpares(CALLER_RULES, Empty(s.allocation), steps, s);
    hide Inv, Spares, Run, Continues;
    EnsureBegins(s, begin);
    ServingGoesOn(Next(s, begin), begin.id, more, t);
  }

  // The rest of a run, after one of its prefixes.
  lemma {:induction false} RestOfRun(rules: set<Rule>, start: State, steps: seq<Step>, s: State, more: seq<Step>,
                                     t: State)
    requires Continues(rules, start, steps, s) && Continues(rules, start, more, t) && steps <= more
    ensures Continues({}, s, more[|steps|..], t)
    decreases |more|
  {
    if more == steps {
      SameEnd(rules, start, steps, s, t);
      assert more[|steps|..] == [];
    } else {
      var init, last := more[..|more| - 1], more[|more| - 1];
      var before :| Continues(rules, start, init, before) && Moves(rules, before, last, t);
      RestOfRun(rules, start, steps, s, init, before);
      hide Next, Enabled, Obeys;
      var rest := more[|steps|..];
      assert rest[..|rest| - 1] == init[|steps|..] && rest[|rest| - 1] == last;
      assert Moves({}, before, last, t);
    }
  }

  lemma {:induction false} SameEnd(rules: set<Rule>, start: State, steps: seq<Step>, a: State, b: State)
    requires Continues(rules, start, steps, a) && Continues(rules, start, steps, b)
    ensures a == b
    decreases |steps|
  {
    hide Next, Enabled, Obeys;
    if steps != [] {
      var init, last := steps[..|steps| - 1], steps[|steps| - 1];
      var x :| Continues(rules, start, init, x) && Moves(rules, x, last, a);
      var y :| Continues(rules, start, init, y) && Moves(rules, y, last, b);
      SameEnd(rules, start, init, x, y);
    }
  }

  // A unit just recorded, beside which nothing is under way.
  lemma AcceptedServes(rules: set<Rule>, steps: seq<Step>, s: State, u: Unit)
    requires Run(rules, steps, Accepted(s, u)) && CALLER_RULES <= rules && s.requests == map[] && u.pid in s.live
    requires Recording(s, u).Some?
    ensures Serving(Accepted(s, u), 0) && CleansUp(Accepted(s, u))
  {
    RunSpares(rules, Empty(s.allocation), steps, Accepted(s, u));
    hide Inv, Spares;
  }

  /** An ensure that has a unit to start can start it: from every disciplined state at rest it can come to its
      end by its own steps, with the new unit recorded for its generation and alive. */
  lemma EnsureCanStartUnit(steps: seq<Step>, s: State, sidecar: string, g: nat)
    returns (steps': seq<Step>, t: State, u: Unit)
    requires AtRest(ALL_RULES, steps, s) && Starts(s, sidecar, g) && g >= 1 && g !in s.unrecorded
    ensures AtRest(ALL_RULES, steps', t) && GoesOn(steps + [BeginEnsure(0, sidecar, g)], steps')
    ensures u.generation == g && u.pid !in s.spawned && u.pid in t.live
    ensures var allocation := EnsureDecision(s, sidecar, g).record.allocationId;
      t.record == Some(Record(allocation, sidecar, g, Desired.Ensured, Some(u)))
  {
    var pid := FreshPid(s.spawned);
    u := Unit(g, pid);
    ObservedDecides(s, sidecar, g);
    hide Run, GoesOn, Starts;
    var base := Started(Observed(s, sidecar, g), u);
    var started, m := EnsureAlone(ALL_RULES, steps, s, sidecar, u);
    AcceptedServes(ALL_RULES, started, base, u);
    steps', t := CanFinish(ALL_RULES, started, m, 0, 0);
    FinishedServes(ALL_RULES, started, m, steps', t);
    FinishGoesOn(steps + [BeginEnsure(0, sidecar, g)], started, steps');
  }

  lemma FinishGoesOn(steps: seq<Step>, started: seq<Step>, ended: seq<Step>)
    requires GoesOn(steps, started) && OwnSteps(started, ended, 0)
    ensures GoesOn(steps, ended)
  {
    GoesFurtherOn(steps, started, ended);
  }

  lemma FinishedServes(rules: set<Rule>, started: seq<Step>, m: State, ended: seq<Step>, t: State)
    requires Run(rules, started, m) && Run(rules, ended, t) && t.allocation == m.allocation
    requires OwnSteps(started, ended, 0)
    requires Serving(m, 0) && CleansUp(m)
    ensures Serving(t, 0) && t.record == m.record
  {
    hide Serving, Continues, CleansUp;
    RestOfRun(rules, Empty(m.allocation), started, m, ended, t);
    var rest := ended[|started|..];
    assert forall k | 0 <= k < |rest| :: rest[k] == ended[|started| + k];
    ServingGoesOn(m, 0, rest, t);
  }

  // What a destroy has to stop, when it knows.
  ghost function Target(s: State, begin: Step): Option<Unit>
    requires begin.BeginDestroy? && Enabled(s, begin)
  {
    if begin.explicit.Some? then begin.explicit
    else DestroyDecision(s, begin.sidecar, begin.generation).record.externalRef
  }

  // A destroy on its way: the unit to stop, stopped, or gone with its directory.
  ghost predicate Destroying(s: State, id: nat, u: Unit) {
    var gone := u.pid !in s.live && u.generation !in s.dirs && u.generation !in s.pidFiles;
    && s.requests.Keys <= {id}
    && (id !in s.requests ==> gone)
    && (id in s.requests ==>
          var phase := s.requests[id].phase;
          phase == Stopping([u]) || (phase == Removing(u, []) && u.pid !in s.live) || (phase == Stopping([]) && gone))
  }

  lemma DestroyingStep(s: State, step: Step, id: nat, u: Unit)
    requires Destroying(s, id, u) && Enabled(s, step) && Owned(step, id)
    ensures Destroying(Next(s, step), id, u) && Next(s, step).record == s.record
  {
  }

  lemma {:induction false} DestroyingGoesOn(s: State, id: nat, u: Unit, more: seq<Step>, t: State)
    requires Destroying(s, id, u) && Continues({}, s, more, t) && forall step | step in more :: Owned(step, id)
    ensures Destroying(t, id, u) && t.record == s.record
    decreases |more|
  {
    hide Destroying;
    if more != [] {
      var init, last := more[..|more| - 1], more[|more| - 1];
      var before :| Continues({}, s, init, before) && Moves({}, before, last, t);
      DestroyingGoesOn(s, id, u, init, before);
      assert last in more;
      DestroyingStep(before, last, id, u);
    }
  }

  /** A destroy that nothing disturbs, of any state at rest: once it ends, the unit it names, or else the
      recorded one, is dead, its directory with the pid file is gone, and the record is destroyed. */
  lemma UndisturbedDestroyCleans(s: State, begin: Step, more: seq<Step>, t: State)
    requires s.requests == map[] && begin.BeginDestroy? && Enabled(s, begin) && Target(s, begin).Some?
    requires Continues({}, Next(s, begin), more, t) && forall step | step in more :: Owned(step, begin.id)
    requires t.requests == map[]
    ensures var u := Target(s, begin).value;
      u.pid !in t.live && u.generation !in t.dirs && u.generation !in t.pidFiles
    ensures t.record.Some? && t.record.value.desired == Destroyed && t.record.value.generation == begin.generation
  {
    DestroyBegins(s, begin);
    hide Continues, Next, Enabled;
    DestroyingGoesOn(Next(s, begin), begin.id, Target(s, begin).value, more, t);
  }

  lemma DestroyBegins(s: State, begin: Step)
    requires s.requests == map[] && begin.BeginDestroy? && Enabled(s, begin) && Target(s, begin).Some?
    ensures var m := Next(s, begin);
      && Destroying(m, begin.id, Target(s, begin).value)
      && m.record.Some? && m.record.value.desired == Destroyed && m.record.value.generation == begin.generation
  {
  }

  // The generations under which a listing finds a process that is to stop.
  function Obsolete(s: State, keep: Option<Unit>): set<nat> {
    set g | g in s.pidFiles && g in s.dirs && g > 0 && s.pidFiles[g] in s.live && Some(Unit(g, s.pidFiles[g])) != keep
  }

  function PidsOf(s: State, generations: set<nat>): set<nat> {
    set g | g in generations && g in s.pidFiles :: s.pidFiles[g]
  }

  // The state in which some generations are swept, and the processes of some.
  ghost predicate SweptTo(start: State, s: State, removed: set<nat>, stopped: set<nat>) {
    && s.record == start.record && s.dirs == start.dirs - removed && s.pidFiles == start.pidFiles - removed
    && s.live == start.live - PidsOf(start, stopped)
  }

  ghost predicate Queues(start: State, queue: seq<Unit>, generations: set<nat>) {
    && (forall u | u in queue :: u.generation in generations)
    && (forall g | g in generations :: g in start.pidFiles && Unit(g, start.pidFiles[g]) in queue)
    && (forall u | u in queue :: u.generation in start.pidFiles && u.pid == start.pidFiles[u.generation])
    && Distinct(queue)
  }

  ghost predicate Distinct(units: seq<Unit>) {
    forall i, j | 0 <= i < j < |units| :: units[i].generation != units[j].generation
  }

  // A cleanup on its way, from where its listing began.
  ghost predicate Sweeping(start: State, keep: Option<Unit>, s: State, id: nat) {
    var all := Obsolete(start, keep);
    && s.requests.Keys <= {id}
    && if id !in s.requests then SweptTo(start, s, all, all)
       else
         match s.requests[id].phase
         case Listing(k) => k == keep && SweptTo(start, s, {}, {})
         case Reading(k, todo, found) =>
           && k == keep && SweptTo(start, s, {}, {}) && todo <= Listed(start.dirs)
           && Queues(start, found, Obsolete(start, None) - todo)
         case Stopping(queue) =>
           exists rest :: rest <= all && Queues(start, queue, rest) && SweptTo(start, s, all - rest, all - rest)
         case Removing(u, queue) =>
           exists rest :: rest <= all && u.generation in all - rest && Queues(start, queue, rest) &&
             SweptTo(start, s, all - rest - {u.generation}, all - rest)
         case _ => false
  }

  lemma ListingSweeps(start: State, keep: Option<Unit>, s: State, id: nat, step: Step)
    requires Sweeping(start, keep, s, id) && Enabled(s, step) && Owned(step, id) && !step.FailList?
    requires id in s.requests && (s.requests[id].phase.Listing? || s.requests[id].phase.Reading?) && !step.DoneReading?
    ensures Sweeping(start, keep, Next(s, step), id)
  {
    hide Queues, SweptTo;
    SweptNothing(start, s);
    SweptNothing(start, Next(s, step));
    if step.ReadDir? {
      assert Obsolete(start, None) - Listed(start.dirs) == {};
      NothingQueues(start);
    } else {
      ReadIsQueued(start, s.requests[id].phase.found, s.requests[id].phase.todo, step.generation);
    }
  }

  lemma SweptNothing(start: State, s: State)
    ensures SweptTo(start, s, {}, {}) <==>
      s.record == start.record && s.dirs == start.dirs && s.pidFiles == start.pidFiles && s.live == start.live
  {
    assert start.pidFiles - {} == start.pidFiles && start.dirs - {} == start.dirs;
    assert start.live - PidsOf(start, {}) == start.live;
  }

  lemma NothingQueues(start: State)
    ensures Queues(start, [], {})
  {
  }

  lemma ReadIsQueued(start: State, found: seq<Unit>, todo: set<nat>, g: nat)
    requires Queues(start, found, Obsolete(start, None) - todo) && todo <= Listed(start.dirs) && g in todo
    ensures var more := Obsolete(start, None) - (todo - {g});
      if g in start.pidFiles && start.pidFiles[g] in start.live
      then Queues(start, found + [Unit(g, start.pidFiles[g])], more)
      else Queues(start, found, more)
  {
    var all := Obsolete(start, None);
    if g in start.pidFiles && start.pidFiles[g] in start.live {
      assert g in all && all - (todo - {g}) == all - todo + {g};
    } else {
      assert all - (todo - {g}) == all - todo;
    }
  }

  lemma KeptAreQueued(start: State, keep: Option<Unit>, found: seq<Unit>)
    requires Queues(start, found, Obsolete(start, None))
    ensures Queues(start, Except(found, keep), Obsolete(start, keep))
  {
    DistinctExcept(found, keep);
  }

  lemma {:induction false} DistinctExcept(units: seq<Unit>, keep: Option<Unit>)
    requires Distinct(units)
    ensures Distinct(Except(units, keep))
  {
    if units != [] {
      var tail := Except(units[1..], keep);
      assert Distinct(units[1..]) && forall u | u in units[1..] :: u.generation != units[0].generation;
      DistinctExcept(units[1..], keep);
      hide Distinct;
      if Some(units[0]) == keep {
        assert [] + tail == tail;
      } else {
        DistinctBehind(units[0], tail);
      }
    }
  }

  lemma DistinctBehind(first: Unit, tail: seq<Unit>)
    requires Distinct(tail) && forall u | u in tail :: u.generation != first.generation
    ensures Distinct([first] + tail)
  {
    var all := [first] + tail;
    forall i, j | 0 <= i < j < |all| ensures all[i].generation != all[j].generation {
      assert all[j] == tail[j - 1];
    }
  }

  lemma StoppingBegins(start: State, keep: Option<Unit>, s: State, id: nat, step: Step)
    requires Sweeping(start, keep, s, id) && Enabled(s, step) && Owned(step, id) && step.DoneReading?
    ensures Sweeping(start, keep, Next(s, step), id)
  {
    var all := Obsolete(start, keep);
    KeptAreQueued(start, keep, s.requests[id].phase.found);
    assert all <= all && SweptTo(start, s, all - all, all - all);
  }

  lemma FirstStops(start: State, keep: Option<Unit>, s: State, id: nat, step: Step)
    requires Sweeping(start, keep, s, id) && Enabled(s, step) && Owned(step, id) && step.Terminate?
    ensures Sweeping(start, keep, Next(s, step), id)
  {
    hide Obsolete, Queues, SweptTo;
    var all, queue := Obsolete(start, keep), s.requests[id].phase.queue;
    var rest :| rest <= all && Queues(start, queue, rest) && SweptTo(start, s, all - rest, all - rest);
    FirstIsQueued(start, queue, rest);
    var g := queue[0].generation;
    assert all - (rest - {g}) == (all - rest) + {g} && (all - rest) + {g} - {g} == all - rest;
    FirstIsStopped(start, s, all - rest, queue[0]);
    assert Queues(start, queue[1..], rest - {g});
  }

  lemma FirstIsQueued(start: State, queue: seq<Unit>, generations: set<nat>)
    requires Queues(start, queue, generations) && queue != []
    ensures var u := queue[0];
      && u.generation in generations && u.generation in start.pidFiles && u.pid == start.pidFiles[u.generation]
      && Queues(start, queue[1..], generations - {u.generation})
  {
  }

  lemma FirstIsStopped(start: State, s: State, swept: set<nat>, u: Unit)
    requires SweptTo(start, s, swept, swept) && u.generation in start.pidFiles && start.pidFiles[u.generation] == u.pid
    ensures forall t: State | t.record == s.record && t.dirs == s.dirs && t.pidFiles == s.pidFiles &&
                       t.live == s.live - {u.pid} :: SweptTo(start, t, swept, swept + {u.generation})
  {
    assert PidsOf(start, swept + {u.generation}) == PidsOf(start, swept) + {u.pid};
  }

  lemma FirstGoes(start: State, keep: Option<Unit>, s: State, id: nat, step: Step)
    requires Sweeping(start, keep, s, id) && Enabled(s, step) && Owned(step, id) && step.RemoveDir?
    ensures Sweeping(start, keep, Next(s, step), id)
  {
    var all, u, queue := Obsolete(start, keep), s.requests[id].phase.unit, s.requests[id].phase.queue;
    var rest :| rest <= all && u.generation in all - rest && Queues(start, queue, rest) &&
      SweptTo(start, s, all - rest - {u.generation}, all - rest);
    assert SweptTo(start, Next(s, step), all - rest, all - rest);
  }

  lemma SweepEnds(start: State, keep: Option<Unit>, s: State, id: nat, step: Step)
    requires Sweeping(start, keep, s, id) && Enabled(s, step) && Owned(step, id) && step.Finish?
    ensures Sweeping(start, keep, Next(s, step), id)
  {
    var all, queue := Obsolete(start, keep), s.requests[id].phase.queue;
    var rest :| rest <= all && Queues(start, queue, rest) && SweptTo(start, s, all - rest, all - rest);
    assert rest == {};
    assert all - rest == all;
  }

  lemma SweepStep(start: State, keep: Option<Unit>, s: State, id: nat, step: Step)
    requires Sweeping(start, keep, s, id) && Enabled(s, step) && Owned(step, id) && !step.FailList?
    ensures Sweeping(start, keep, Next(s, step), id)
  {
    OwnedAreUnderway(s, step, id);
    var phase := s.requests[id].phase;
    assert phase.Listing? || phase.Reading? || phase.Stopping? || phase.Removing?;
    hide Sweeping, Next;
    if step.DoneReading? {
      StoppingBegins(start, keep, s, id, step);
    } else if phase.Listing? || phase.Reading? {
      ListingSweeps(start, keep, s, id, step);
    } else if step.Terminate? {
      FirstStops(start, keep, s, id, step);
    } else if step.RemoveDir? {
      FirstGoes(start, keep, s, id, step);
    } else {
      SweepEnds(start, keep, s, id, step);
    }
  }

  lemma {:induction false} SweepGoesOn(start: State, keep: Option<Unit>, s: State, id: nat, more: seq<Step>, t: State)
    requires Sweeping(start, keep, s, id) && Continues({NoFailedList}, s, more, t)
    requires forall step | step in more :: Owned(step, id)
    ensures Sweeping(start, keep, t, id)
    decreases |more|
  {
    hide Sweeping;
    if more != [] {
      var init, last := more[..|more| - 1], more[|more| - 1];
      var before :| Continues({NoFailedList}, s, init, before) && Moves({NoFailedList}, before, last, t);
      SweepGoesOn(start, keep, s, id, init, before);
      assert last in more && NoFailedList in {NoFailedList} && Obeys(before, last, NoFailedList);
      hide Continues, Next, Enabled;
      SweepStep(start, keep, before, id, last);
    }
  }

  lemma SweepBegins(s: State, id: nat, keep: Option<Unit>)
    requires s.requests.Keys == {id} && s.requests[id].phase == Listing(keep)
    ensures Sweeping(s, keep, s, id)
  {
    assert s.dirs - {} == s.dirs && s.pidFiles - {} == s.pidFiles;
    assert PidsOf(s, {}) == {} && s.live - {} == s.live;
  }

  /** What a cleanup that nothing disturbs does is exact, for any files and any processes. Of the generations
      that its listing recognises it stops the processes that are filed and alive, all but the one to keep, and
      removes just their directories with the pid files; every other directory, pid file and process stays, and
      so does the record. */
  lemma UndisturbedSweepIs(s: State, id: nat, keep: Option<Unit>, more: seq<Step>, t: State)
    requires s.requests.Keys == {id} && s.requests[id].phase == Listing(keep)
    requires Continues({NoFailedList}, s, more, t) && forall step | step in more :: Owned(step, id)
    requires t.requests == map[]
    ensures var swept := Obsolete(s, keep);
      && t.record == s.record && t.dirs == s.dirs - swept && t.pidFiles == s.pidFiles - swept
      && t.live == s.live - PidsOf(s, swept)
  {
    SweepBegins(s, id, keep);
    hide Continues;
    SweepGoesOn(s, keep, s, id, more, t);
  }
}
