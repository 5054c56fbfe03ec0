/** What a lost process is, and how far a destroy reaches; with the steps that these arguments take. */
module ProvisionerLimits {
  import opened Options
  import opened AllocationRecord
  import opened Provisioner
  import opened ProvisionerSafety

  // Some request can still stop or record the process.
  ghost predicate Mentions(phase: Phase, pid: nat) {
    match phase
    case Spawned(u) => u.pid == pid
    case Aborting(u) => u.pid == pid
    case Written(u) => u.pid == pid
    case Reading(_, _, found) => exists u :: u in found && u.pid == pid
    case Stopping(queue) => exists u :: u in queue && u.pid == pid
    case Removing(_, queue) => exists u :: u in queue && u.pid == pid
    case _ => false
  }

  // No request goes to read the directory of generation 0, which no listing recognises.
  ghost predicate SkipsZero(phase: Phase) {
    phase.Reading? ==> 0 !in phase.todo
  }

  /** Alive, and named by nothing the provisioner looks at. */
  ghost predicate Lost(s: State, pid: nat) {
    && pid in s.live && pid in s.spawned
    && (s.record.Some? && s.record.value.externalRef.Some? ==> s.record.value.externalRef.value.pid != pid)
    && (forall g | g in s.pidFiles && g > 0 :: s.pidFiles[g] != pid)
    && (forall id | id in s.requests :: !Mentions(s.requests[id].phase, pid) && SkipsZero(s.requests[id].phase))
  }

  /** A lost process is lost for good: only its own death, or a caller who knows its reference, ends it. */
  lemma LostStaysLost(s: State, step: Step, pid: nat)
    requires Lost(s, pid) && Enabled(s, step)
    requires step != Die(pid)
    requires step.BeginDestroy? && step.explicit.Some? ==> step.explicit.value.pid != pid
    ensures Lost(Next(s, step), pid)
  {
    var t := Next(s, step);
    hide Next, Enabled, Mentions;
    StaysUnrecorded(s, step, pid);
    StaysUnfiled(s, step, pid);
    StaysAlive(s, step, pid);
    forall id | id in t.requests ensures !Mentions(t.requests[id].phase, pid) && SkipsZero(t.requests[id].phase) {
      if id in s.requests {
        assert !Mentions(s.requests[id].phase, pid);
        StaysUnmentioned(s, step, pid, id);
      } else {
        OnlyBeginsCome(s, step, id);
        ComesUnmentioned(s, step, pid);
      }
    }
  }

  // The request that takes the step does not mention the process.
  ghost predicate Ignores(s: State, step: Step, pid: nat) {
    !step.Die? && step.id in s.requests ==> !Mentions(s.requests[step.id].phase, pid)
  }

  lemma StaysUnrecorded(s: State, step: Step, pid: nat)
    requires Ignores(s, step, pid) && Enabled(s, step)
    requires s.record.Some? && s.record.value.externalRef.Some? ==> s.record.value.externalRef.value.pid != pid
    ensures var record := Next(s, step).record;
      record.Some? && record.value.externalRef.Some? ==> record.value.externalRef.value.pid != pid
  {
  }

  lemma StaysUnfiled(s: State, step: Step, pid: nat)
    requires Ignores(s, step, pid) && Enabled(s, step) && forall g | g in s.pidFiles && g > 0 :: s.pidFiles[g] != pid
    ensures forall g | g in Next(s, step).pidFiles && g > 0 :: Next(s, step).pidFiles[g] != pid
  {
  }

  lemma StaysAlive(s: State, step: Step, pid: nat)
    requires Ignores(s, step, pid) && Enabled(s, step) && step != Die(pid) && pid in s.live && pid in s.spawned
    ensures pid in Next(s, step).live && pid in Next(s, step).spawned
  {
  }

  lemma OnlyBeginsCome(s: State, step: Step, id: nat)
    requires Enabled(s, step) && id in Next(s, step).requests && id !in s.requests
    ensures (step.BeginEnsure? || step.BeginDestroy?) && step.id == id
  {
  }

  lemma ComesUnmentioned(s: State, step: Step, pid: nat)
    requires Lost(s, pid) && Enabled(s, step) && (step.BeginEnsure? || step.BeginDestroy?)
    requires step.BeginDestroy? && step.explicit.Some? ==> step.explicit.value.pid != pid
    ensures var phase := Next(s, step).requests[step.id].phase; !Mentions(phase, pid) && SkipsZero(phase)
  {
  }

  lemma StaysUnmentioned(s: State, step: Step, pid: nat, id: nat)
    requires Lost(s, pid) && Enabled(s, step) && id in s.requests && id in Next(s, step).requests
    requires !Mentions(s.requests[id].phase, pid)
    ensures !Mentions(Next(s, step).requests[id].phase, pid) && SkipsZero(Next(s, step).requests[id].phase)
  {
    if step.Die? || step.id != id {
      OthersStay(s, step, id);
    } else {
      OwnStaysUnmentioned(s, step, pid);
    }
  }

  lemma OthersStay(s: State, step: Step, id: nat)
    requires Enabled(s, step) && (step.Die? || step.id != id) && id in s.requests
    ensures id in Next(s, step).requests && Next(s, step).requests[id] == s.requests[id]
  {
  }

  lemma OwnStaysUnmentioned(s: State, step: Step, pid: nat)
    requires Enabled(s, step) && !step.Die? && step.id in s.requests && step.id in Next(s, step).requests
    requires pid in s.spawned && !Mentions(s.requests[step.id].phase, pid) && SkipsZero(s.requests[step.id].phase)
    requires forall g | g in s.pidFiles && g > 0 :: s.pidFiles[g] != pid
    ensures !Mentions(Next(s, step).requests[step.id].phase, pid) && SkipsZero(Next(s, step).requests[step.id].phase)
  {
  }

  ghost predicate AtRest(rules: set<Rule>, steps: seq<Step>, s: State) {
    Run(rules, steps, s) && s.requests == map[]
  }

  lemma Do(rules: set<Rule>, steps: seq<Step>, s: State, step: Step) returns (steps': seq<Step>, t: State)
    requires Run(rules, steps, s) && Enabled(s, step)
    requires forall rule | rule in rules :: Obeys(s, step, rule)
    ensures steps' == steps + [step] && t == Next(s, step) && Run(rules, steps', t)
  {
    steps', t := steps + [step], Next(s, step);
    assert steps'[..|steps'| - 1] == steps && steps'[|steps'| - 1] == step;
    assert Continues(rules, Empty(t.allocation), steps, s) && Moves(rules, s, step, t);
  }

  lemma Nothing(rules: set<Rule>, allocation: string)
    ensures Run(rules, [], Empty(allocation))
  {
  }

  // A run that obeys some rules obeys fewer.
  lemma {:induction false} FewerRules(rules: set<Rule>, fewer: set<Rule>, s: State, steps: seq<Step>, end: State)
    requires fewer <= rules && Continues(rules, s, steps, end)
    ensures Continues(fewer, s, steps, end)
    decreases |steps|
  {
    if steps != [] {
      var init, last := steps[..|steps| - 1], steps[|steps| - 1];
      var before :| Continues(rules, s, init, before) && Moves(rules, before, last, end);
      FewerRules(rules, fewer, s, init, before);
      assert Moves(fewer, before, last, end);
    }
  }

  // A step that some request already under way takes, and that does not fail to list.
  predicate Quiet(step: Step) {
    !step.BeginEnsure? && !step.BeginDestroy? && !step.Die? && !step.FailList?
  }

  // Nothing begins, dies by itself or fails to list among the steps that were added.
  ghost predicate GoesOn(steps: seq<Step>, steps': seq<Step>) {
    steps <= steps' && forall k | |steps| <= k < |steps'| :: Quiet(steps'[k])
  }

  lemma GoesFurtherOn(a: seq<Step>, b: seq<Step>, c: seq<Step>)
    requires GoesOn(a, b) && GoesOn(b, c)
    ensures GoesOn(a, c)
  {
  }

  // The rules bind callers and listings; the steps in between obey them all.
  lemma Go(rules: set<Rule>, steps: seq<Step>, s: State, step: Step) returns (steps': seq<Step>, t: State)
    requires Run(rules, steps, s) && Enabled(s, step) && Quiet(step)
    ensures steps' == steps + [step] && t == Next(s, step) && Run(rules, steps', t)
  {
    steps', t := Do(rules, steps, s, step);
  }

  function Stage(s: State, id: nat, phase: Phase, isEnsure: bool := true): State {
    s.(requests := s.requests[id := Request(isEnsure, phase)])
  }

  lemma Restage(s: State, id: nat, a: Phase, b: Phase, isEnsure: bool := true)
    ensures Enter(Stage(s, id, a, isEnsure), id, b) == Stage(s, id, b, isEnsure)
  {
  }

  // A unit started, and its pid filed.
  function Started(s: State, u: Unit): State {
    s.(dirs := s.dirs + {u.generation}, pidFiles := s.pidFiles[u.generation := u.pid],
       live := s.live + {u.pid}, spawned := s.spawned[u.pid := u.generation],
       written := if u.generation in s.written then s.written else s.written[u.generation := u.pid])
  }

  // An ensure of a generation without a unit, from its first observation to its filed pid.
  lemma StartUnit(rules: set<Rule>, steps: seq<Step>, s: State, id: nat, g: nat, pid: nat)
    returns (steps': seq<Step>, t: State)
    requires Run(rules, steps, Stage(s, id, Starting(g))) && pid > 0 && pid !in s.spawned
    ensures Run(rules, steps', t) && GoesOn(steps, steps')
    ensures t == Stage(Started(s, Unit(g, pid)), id, Written(Unit(g, pid)))
  {
    hide Run;
    steps', t := Go(rules, steps, Stage(s, id, Starting(g)), MakeDir(id));
    Restage(s, id, Starting(g), Prepared(g));
    steps', t := Go(rules, steps', t, Spawn(id, pid));
    Restage(s, id, Prepared(g), Spawned(Unit(g, pid)));
    steps', t := Go(rules, steps', t, WritePid(id));
    Restage(s, id, Spawned(Unit(g, pid)), Written(Unit(g, pid)));
  }

  // The recording of a started unit.
  lemma RecordUnit(rules: set<Rule>, steps: seq<Step>, s: State, id: nat, u: Unit)
    returns (steps': seq<Step>, t: State)
    requires Run(rules, steps, Stage(s, id, Written(u))) && Recording(s, u).Some?
    ensures Run(rules, steps', t) && GoesOn(steps, steps')
    ensures t == Stage(s.(record := Recording(s, u), missed := {}), id, Listing(Some(u)))
  {
    hide Run;
    steps', t := Go(rules, steps, Stage(s, id, Written(u)), RecordStarted(id));
    Restage(s, id, Written(u), Listing(Some(u)));
  }

  // Every unit a cleanup is bound to stop belongs to generation g or an older one.
  ghost predicate UpTo(phase: Phase, g: nat) {
    match phase
    case Stopping(queue) => forall u | u in queue :: u.generation <= g
    case Removing(u, queue) => u.generation <= g && forall v | v in queue :: v.generation <= g
    case _ => false
  }

  lemma UpToStays(s: State, step: Step, id: nat, g: nat)
    requires id in s.requests && UpTo(s.requests[id].phase, g) && Enabled(s, step)
    ensures id in Next(s, step).requests ==> UpTo(Next(s, step).requests[id].phase, g)
  {
  }

  /** A destroy that observes a recorded unit never stops a unit of a newer generation. */
  lemma DestroyOfRecordedUnitIsFenced(steps: seq<Step>, s: State, step: Step)
    requires Run(CALLER_RULES, steps, s) && step.BeginDestroy? && Enabled(s, step) && Disciplined(s, step)
    requires DestroyDecision(s, step.sidecar, step.generation).record.externalRef.Some?
    ensures UpTo(Next(s, step).requests[step.id].phase, step.generation)
  {
    RunKeeps(CALLER_RULES, steps, s);
  }

  lemma FreshPid(spawned: map<nat, nat>) returns (pid: nat)
    ensures pid > 0 && pid !in spawned
  {
    var rest := spawned.Keys;
    pid := 1;
    while rest != {}
      invariant pid > 0 && forall p | p in spawned && p !in rest :: p < pid
      decreases rest
    {
      var p :| p in rest;
      pid := if p < pid then pid else p + 1;
      rest := rest - {p};
    }
  }

  lemma BeginBoth(steps: seq<Step>, s: State, sidecar: string, g: nat)
    returns (steps': seq<Step>, t: State)
    requires Run(ALL_RULES, steps, s) && s.requests == map[]
    requires Enabled(s, BeginDestroy(0, sidecar, g, None))
    requires DestroyDecision(s, sidecar, g).record.externalRef.None?
    ensures Run(ALL_RULES, steps', t)
    ensures steps' == steps + [BeginDestroy(0, sidecar, g, None), BeginEnsure(1, sidecar, g + 1)]
    ensures t == Stage(Overtaken(s, sidecar, g + 1), 1, Starting(g + 1))
  {
    hide Run;
    NewerIsRecorded(steps, s, sidecar, g);
    steps', t := Do(ALL_RULES, steps, s, BeginDestroy(0, sidecar, g, None));
    steps', t := Do(ALL_RULES, steps', t, BeginEnsure(1, sidecar, g + 1));
  }

  // The destroy of an older generation observed first and is about to list; then g was ensured.
  function Overtaken(s: State, sidecar: string, g: nat): State {
    var record := Record(s.allocation, sidecar, g, Desired.Ensured, None);
    Stage(s.(record := Some(record), missed := {}), 0, Listing(None), false)
  }

  lemma NewerIsRecorded(steps: seq<Step>, s: State, sidecar: string, g: nat)
    requires Run(ALL_RULES, steps, s) && Enabled(s, BeginDestroy(0, sidecar, g, None))
    ensures g + 1 !in s.unrecorded
  {
    RunKeeps(ALL_RULES, steps, s);
  }

  // An old destroy, and an ensure of the next generation after it.
  function BothBegin(sidecar: string, g: nat): seq<Step> {
    [BeginDestroy(0, sidecar, g, None), BeginEnsure(1, sidecar, g + 1)]
  }

  // A destroy that observes no recorded unit lists the directories later, and by then a newer generation
  // may have been ensured and recorded there.
  lemma DestroyFindsNewer(steps: seq<Step>, s: State, sidecar: string, g: nat)
    returns (steps': seq<Step>, t: State, u: Unit)
    requires Run(ALL_RULES, steps, s) && s.requests == map[]
    requires Enabled(s, BeginDestroy(0, sidecar, g, None))
    requires DestroyDecision(s, sidecar, g).record.externalRef.None?
    ensures Run(ALL_RULES, steps', t) && GoesOn(steps + BothBegin(sidecar, g), steps')
    ensures u.generation == g + 1 && t.record == Some(Record(s.allocation, sidecar, g + 1, Desired.Ensured, Some(u)))
    ensures 0 in t.requests && t.requests[0].phase == Listing(None) && !t.requests[0].isEnsure
    ensures u.pid !in s.spawned && u.pid in t.live && HasFile(t, u)
  {
    hide Run;
    var pid := FreshPid(s.spawned);
    u := Unit(g + 1, pid);
    steps', t := BeginBoth(steps, s, sidecar, g);
    var base := Overtaken(s, sidecar, g + 1);
    steps', t := StartUnit(ALL_RULES, steps', base, 1, g + 1, pid);
    steps', t := RecordUnit(ALL_RULES, steps', Started(base, u), 1, u);
  }
}
