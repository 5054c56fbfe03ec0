/**
 * The process provisioner on one allocation: ensure and destroy requests interleave at every await
 * over the allocation record, the unit directories with their pid files, and the live processes.
 * One step stands for the code between two awaits; other allocations touch none of this state.
 */
module Provisioner {
  import opened Options
  import opened AllocationRecord

  // An external reference of this allocation: which generation, and which process.
  datatype Unit = Unit(generation: nat, pid: nat)
  type UnitRecord = Record<Unit>

  // Where a request stands. `Starting` to `Written` belong to ensure; `Listing` to `Removing` are
  // cleanup: the sweep of an ensure (which keeps its own unit), a destroy, or a superseded unit's stop.
  datatype Phase =
    | Starting(generation: nat)
    | Prepared(generation: nat)
    | Spawned(unit: Unit)
    | Aborting(unit: Unit)
    | Written(unit: Unit)
    | Listing(keep: Option<Unit>)
    | Reading(keep: Option<Unit>, todo: set<nat>, found: seq<Unit>)
    | Stopping(queue: seq<Unit>)
    | Removing(unit: Unit, queue: seq<Unit>)

  datatype Request = Request(isEnsure: bool, phase: Phase)

  // `spawned` (pid to generation), `written` (generation to first pid filed there), `unrecorded`
  // (generations whose record write failed) and `missed` (pids that a failed listing left to stop, since a
  // sweep last began) are history: no step decides by the last three.
  datatype State = State(
    allocation: string,
    record: Option<UnitRecord>,
    dirs: set<nat>,
    pidFiles: map<nat, nat>,
    live: set<nat>,
    requests: map<nat, Request>,
    spawned: map<nat, nat>,
    written: map<nat, nat>,
    unrecorded: set<nat>,
    missed: set<nat>)

  function Empty(allocation: string): State {
    State(allocation, None, {}, map[], {}, map[], map[], map[], {}, {})
  }

  datatype Step =
    | BeginEnsure(id: nat, sidecar: string, generation: nat)
    | BeginDestroy(id: nat, sidecar: string, generation: nat, explicit: Option<Unit>)
    | MakeDir(id: nat)
    | FailStart(id: nat)
    | Spawn(id: nat, pid: nat)
    | WritePid(id: nat)
    | FailPid(id: nat)
    | Abort(id: nat)
    | RecordStarted(id: nat)
    | FailRecord(id: nat)
    | ReadDir(id: nat)
    | FailList(id: nat)
    | ReadPid(id: nat, generation: nat)
    | DoneReading(id: nat)
    | Terminate(id: nat)
    | RemoveDir(id: nat)
    | Finish(id: nat)
    | Die(pid: nat)

  function EnsureDecision(s: State, sidecar: string, generation: nat): Decision<Unit> {
    DecideEnsure(s.record, s.allocation, sidecar, generation)
  }

  function DestroyDecision(s: State, sidecar: string, generation: nat): Decision<Unit> {
    DecideDestroy(s.record, s.allocation, sidecar, generation)
  }

  function Recording(s: State, unit: Unit): Option<UnitRecord> {
    DecideRecord(s.record, unit.generation, unit)
  }

  // The unit directories whose names read back as a generation.
  function Listed(dirs: set<nat>): set<nat> {
    set g | g in dirs && g > 0
  }

  predicate Enabled(s: State, step: Step) {
    match step
    case BeginEnsure(id, sidecar, generation) =>
      id !in s.requests && !EnsureDecision(s, sidecar, generation).Refuse?
    case BeginDestroy(id, sidecar, generation, _) =>
      id !in s.requests && !DestroyDecision(s, sidecar, generation).Refuse?
    case MakeDir(id) => id in s.requests && s.requests[id].phase.Starting?
    case FailStart(id) => id in s.requests && (s.requests[id].phase.Starting? || s.requests[id].phase.Prepared?)
    case Spawn(id, pid) => id in s.requests && s.requests[id].phase.Prepared? && pid > 0 && pid !in s.spawned
    case WritePid(id) =>
      id in s.requests && s.requests[id].phase.Spawned? && s.requests[id].phase.unit.generation in s.dirs
    case FailPid(id) => id in s.requests && s.requests[id].phase.Spawned?
    case Abort(id) => id in s.requests && s.requests[id].phase.Aborting?
    case RecordStarted(id) => id in s.requests && s.requests[id].phase.Written?
    case FailRecord(id) =>
      id in s.requests && s.requests[id].phase.Written? && Recording(s, s.requests[id].phase.unit).Some?
    case ReadDir(id) => id in s.requests && s.requests[id].phase.Listing?
    case FailList(id) => id in s.requests && (s.requests[id].phase.Listing? || s.requests[id].phase.Reading?)
    case ReadPid(id, g) => id in s.requests && s.requests[id].phase.Reading? && g in s.requests[id].phase.todo
    case DoneReading(id) => id in s.requests && s.requests[id].phase.Reading? && s.requests[id].phase.todo == {}
    case Terminate(id) => id in s.requests && s.requests[id].phase.Stopping? && s.requests[id].phase.queue != []
    case RemoveDir(id) => id in s.requests && s.requests[id].phase.Removing?
    case Finish(id) => id in s.requests && s.requests[id].phase == Stopping([])
    case Die(pid) => pid in s.live
  }

  // What a listing that throws, on the directory or on a pid file, leaves unstopped.
  function Overlooked(s: State, phase: Phase): set<nat> {
    match phase
    case Listing(keep) => (set g | g in s.pidFiles && Some(Unit(g, s.pidFiles[g])) != keep :: s.pidFiles[g])
    case Reading(keep, todo, found) =>
      (set g | g in s.pidFiles && g in todo && Some(Unit(g, s.pidFiles[g])) != keep :: s.pidFiles[g]) +
      (set u | u in found && Some(u) != keep :: u.pid)
    case _ => {}
  }

  // A listing that begins will see whatever an earlier one missed.
  function StillMissed(s: State, phase: Phase): set<nat> {
    if phase.Listing? then {} else s.missed
  }

  function Enter(s: State, id: nat, phase: Phase): State
    requires id in s.requests
  {
    s.(requests := s.requests[id := s.requests[id].(phase := phase)])
  }

  function Leave(s: State, id: nat): State {
    s.(requests := s.requests - {id})
  }

  function Except(units: seq<Unit>, keep: Option<Unit>): (rest: seq<Unit>)
    ensures forall u :: u in rest <==> u in units && Some(u) != keep
  {
    if units == [] then []
    else (if Some(units[0]) == keep then [] else [units[0]]) + Except(units[1..], keep)
  }

  function Next(s: State, step: Step): State
    requires Enabled(s, step)
  {
    match step
    case BeginEnsure(id, sidecar, generation) =>
      var record := EnsureDecision(s, sidecar, generation).record;
      var phase := if record.externalRef.Some? then Listing(record.externalRef) else Starting(generation);
      s.(record := Some(record), requests := s.requests[id := Request(true, phase)], missed := StillMissed(s, phase))
    case BeginDestroy(id, sidecar, generation, explicit) =>
      var record := DestroyDecision(s, sidecar, generation).record;
      var phase :=
        if explicit.Some? then Stopping([explicit.value])
        else if record.externalRef.Some? then Stopping([record.externalRef.value])
        else Listing(None);
      s.(record := Some(record), requests := s.requests[id := Request(false, phase)], missed := StillMissed(s, phase))
    case MakeDir(id) =>
      var g := s.requests[id].phase.generation;
      Enter(s, id, Prepared(g)).(dirs := s.dirs + {g})
    case FailStart(id) => Leave(s, id)
    case Spawn(id, pid) =>
      var g := s.requests[id].phase.generation;
      Enter(s, id, Spawned(Unit(g, pid))).(live := s.live + {pid}, spawned := s.spawned[pid := g])
    case WritePid(id) =>
      var u := s.requests[id].phase.unit;
      Enter(s, id, Written(u)).(
        pidFiles := s.pidFiles[u.generation := u.pid],
        written := if u.generation in s.written then s.written else s.written[u.generation := u.pid])
    case FailPid(id) => Enter(s, id, Aborting(s.requests[id].phase.unit))
    case Abort(id) => Leave(s, id).(live := s.live - {s.requests[id].phase.unit.pid})
    case RecordStarted(id) =>
      var u := s.requests[id].phase.unit;
      if Recording(s, u).Some? then Enter(s, id, Listing(Some(u))).(record := Recording(s, u), missed := {})
      else Enter(s, id, Stopping([u]))
    case FailRecord(id) => Leave(s, id).(unrecorded := s.unrecorded + {s.requests[id].phase.unit.generation})
    case ReadDir(id) => Enter(s, id, Reading(s.requests[id].phase.keep, Listed(s.dirs), []))
    case FailList(id) => Leave(s, id).(missed := s.missed + Overlooked(s, s.requests[id].phase))
    case ReadPid(id, g) =>
      var phase := s.requests[id].phase;
      var found := if g in s.pidFiles && s.pidFiles[g] in s.live
                   then phase.found + [Unit(g, s.pidFiles[g])] else phase.found;
      Enter(s, id, phase.(todo := phase.todo - {g}, found := found))
    case DoneReading(id) =>
      var phase := s.requests[id].phase;
      Enter(s, id, Stopping(Except(phase.found, phase.keep)))
    case Terminate(id) =>
      var queue := s.requests[id].phase.queue;
      Enter(s, id, Removing(queue[0], queue[1..])).(live := s.live - {queue[0].pid})
    case RemoveDir(id) =>
      var phase := s.requests[id].phase;
      Enter(s, id, Stopping(phase.queue)).(
        dirs := s.dirs - {phase.unit.generation}, pidFiles := s.pidFiles - {phase.unit.generation})
    case Finish(id) => Leave(s, id)
    case Die(pid) => s.(live := s.live - {pid})
  }

  // What the safety argument asks: four rules of the callers, and one of the file system.
  datatype Rule =
    | NoOverlap      // ensures of the allocation do not overlap
    | Listable       // an ensure names a generation the directory listing recognises
    | NoRetry        // no ensure is retried at a generation whose record write failed
    | NoForeignRef   // a destroy names no reference, or the recorded one
    | NoFailedList   // every listing of the unit directories and their pid files succeeds

  const CALLER_RULES: set<Rule> := {NoOverlap, Listable, NoRetry, NoForeignRef}
  const ALL_RULES: set<Rule> := {NoOverlap, Listable, NoRetry, NoForeignRef, NoFailedList}

  ghost predicate Obeys(s: State, step: Step, rule: Rule)
    requires Enabled(s, step)
  {
    match rule
    case NoOverlap => step.BeginEnsure? ==> forall id | id in s.requests :: !s.requests[id].isEnsure
    case Listable => step.BeginEnsure? ==> step.generation >= 1
    case NoRetry => step.BeginEnsure? ==> step.generation !in s.unrecorded
    case NoForeignRef =>
      step.BeginDestroy? && step.explicit.Some? ==>
        step.explicit == DestroyDecision(s, step.sidecar, step.generation).record.externalRef
    case NoFailedList => !step.FailList?
  }

  ghost predicate Disciplined(s: State, step: Step)
    requires Enabled(s, step)
  {
    forall rule | rule in CALLER_RULES :: Obeys(s, step, rule)
  }

  // Steps that obey some of the rules, from one state to another; with no rules, any steps at all.
  ghost predicate Continues(rules: set<Rule>, s: State, steps: seq<Step>, end: State) {
    if steps == [] then end == s
    else
      var last := steps[|steps| - 1];
      exists before :: Continues(rules, s, steps[..|steps| - 1], before) && Moves(rules, before, last, end)
  }

  ghost predicate Run(rules: set<Rule>, steps: seq<Step>, end: State) {
    Continues(rules, Empty(end.allocation), steps, end)
  }

  ghost predicate Moves(rules: set<Rule>, s: State, step: Step, t: State) {
    Enabled(s, step) && t == Next(s, step) && forall rule | rule in rules :: Obeys(s, step, rule)
  }
}
