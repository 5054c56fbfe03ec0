/** No request blocks another: each one ends within its own steps, and every run can come to rest. */
module ProvisionerProgress {
  import opened Options
  import opened AllocationRecord
  import opened Provisioner
  import ProvisionerLimits
  import opened ProvisionerSafety

  // How far a request is from its end: the stage, then what is left to do at that stage.
  function Rank(phase: Phase): (nat, nat) {
    match phase
    case Starting(_) => (7, 0)
    case Prepared(_) => (6, 0)
    case Spawned(_) => (5, 0)
    case Aborting(_) => (4, 0)
    case Written(_) => (4, 0)
    case Listing(_) => (3, 0)
    case Reading(_, todo, _) => (2, |todo|)
    case Stopping(queue) => (1, 2 * |queue|)
    case Removing(_, queue) => (1, 2 * |queue| + 1)
  }

  predicate Lower(a: (nat, nat), b: (nat, nat)) {
    a.0 < b.0 || (a.0 == b.0 && a.1 < b.1)
  }

  // A step that some request already under way takes.
  predicate Owned(step: Step, id: nat) {
    !step.BeginEnsure? && !step.BeginDestroy? && !step.Die? && step.id == id
  }

  /** Whatever the interleaving, a request's own steps bring it nearer to its end, and no other step
      touches it: so it takes finitely many steps. */
  lemma StepsLowerRank(s: State, step: Step, id: nat)
    requires Enabled(s, step) && id in s.requests && id in Next(s, step).requests
    ensures Owned(step, id) ==> Lower(Rank(Next(s, step).requests[id].phase), Rank(s.requests[id].phase))
    ensures !Owned(step, id) ==> Next(s, step).requests[id] == s.requests[id]
  {
    if !Owned(step, id) {
      ProvisionerLimits.OthersStay(s, step, id);
    } else if Rank(s.requests[id].phase).0 > 5 {
      PreparingStepLowersRank(s, step, id);
    } else if Rank(s.requests[id].phase).0 > 3 {
      StartedStepLowersRank(s, step, id);
    } else {
      CleanupStepLowersRank(s, step, id);
    }
  }

  lemma PreparingStepLowersRank(s: State, step: Step, id: nat)
    requires Enabled(s, step) && id in s.requests && id in Next(s, step).requests && Owned(step, id)
    requires s.requests[id].phase.Starting? || s.requests[id].phase.Prepared?
    ensures Rank(Next(s, step).requests[id].phase).0 < Rank(s.requests[id].phase).0
  {
  }

  lemma StartedStepLowersRank(s: State, step: Step, id: nat)
    requires Enabled(s, step) && id in s.requests && id in Next(s, step).requests && Owned(step, id)
    requires s.requests[id].phase.Spawned? || s.requests[id].phase.Aborting? || s.requests[id].phase.Written?
    ensures Rank(Next(s, step).requests[id].phase).0 < Rank(s.requests[id].phase).0
  {
  }

  lemma CleanupStepLowersRank(s: State, step: Step, id: nat)
    requires Enabled(s, step) && id in s.requests && id in Next(s, step).requests && Owned(step, id)
    requires Rank(s.requests[id].phase).0 <= 3
    ensures Lower(Rank(Next(s, step).requests[id].phase), Rank(s.requests[id].phase))
  {
  }

  // A request never waits for another: it has a step of its own in every state.
  lemma CanStep(s: State, id: nat) returns (step: Step)
    requires id in s.requests
    ensures Owned(step, id) && Enabled(s, step) && ProvisionerLimits.Quiet(step)
    ensures id in Next(s, step).requests || Next(s, step).requests == s.requests - {id}
    ensures id in Next(s, step).requests ==> Next(s, step).requests - {id} == s.requests - {id}
  {
    match s.requests[id].phase
    case Starting(_) => step := MakeDir(id);
    case Prepared(_) => step := FailStart(id);
    case Spawned(_) => step := FailPid(id);
    case Aborting(_) => step := Abort(id);
    case Written(_) => step := RecordStarted(id);
    case Listing(_) => step := ReadDir(id);
    case Reading(_, todo, _) =>
      if todo == {} {
        step := DoneReading(id);
      } else {
        var g :| g in todo;
        step := ReadPid(id, g);
      }
    case Stopping(queue) => step := if queue == [] then Finish(id) else Terminate(id);
    case Removing(_, _) => step := RemoveDir(id);
  }

  // A cleanup leaves the record alone, and a request never finds a lost process.
  lemma OwnedStepKeeps(s: State, step: Step, id: nat, pid: nat)
    requires Enabled(s, step) && Owned(step, id) && id in s.requests
    ensures Rank(s.requests[id].phase).0 <= 3 ==> Next(s, step).record == s.record
    ensures Next(s, step).allocation == s.allocation
    ensures ProvisionerLimits.Lost(s, pid) ==> ProvisionerLimits.Lost(Next(s, step), pid)
  {
    if ProvisionerLimits.Lost(s, pid) {
      ProvisionerLimits.LostStaysLost(s, step, pid);
    }
  }

  // The steps that were added are the request's own, and no listing of it fails.
  ghost predicate OwnSteps(steps: seq<Step>, steps': seq<Step>, id: nat) {
    ProvisionerLimits.GoesOn(steps, steps') && forall k | |steps| <= k < |steps'| :: Owned(steps'[k], id)
  }

  ghost predicate CleansUp(s: State) {
    forall id | id in s.requests :: Rank(s.requests[id].phase).0 <= 3
  }

  // A request can come to its end by itself.
  lemma CanFinish(rules: set<Rule>, steps: seq<Step>, s: State, id: nat, pid: nat) returns (steps': seq<Step>, t: State)
    requires Run(rules, steps, s) && id in s.requests
    ensures Run(rules, steps', t) && OwnSteps(steps, steps', id) && t.requests == s.requests - {id}
    ensures t.allocation == s.allocation && (Rank(s.requests[id].phase).0 <= 3 ==> t.record == s.record)
    ensures ProvisionerLimits.Lost(s, pid) ==> ProvisionerLimits.Lost(t, pid)
    decreases Rank(s.requests[id].phase).0, Rank(s.requests[id].phase).1
  {
    hide Run;
    var step := CanStep(s, id);
    steps', t := ProvisionerLimits.Go(rules, steps, s, step);
    OwnedStepKeeps(s, step, id, pid);
    hide Next, Enabled, ProvisionerLimits.Lost;
    if id in t.requests {
      StepsLowerRank(s, step, id);
      steps', t := CanFinish(rules, steps', t, id, pid);
    }
  }

  /** From every state of every run, the requests in flight can all end by their own steps, without a new
      one; a process that is lost by then is lost still, and if they only clean up, the record stays. */
  lemma CanRest(rules: set<Rule>, steps: seq<Step>, s: State, pid: nat) returns (steps': seq<Step>, t: State)
    requires Run(rules, steps, s)
    ensures Run(rules, steps', t) && ProvisionerLimits.GoesOn(steps, steps') && t.requests == map[]
    ensures t.allocation == s.allocation && (CleansUp(s) ==> t.record == s.record)
    ensures ProvisionerLimits.Lost(s, pid) ==> ProvisionerLimits.Lost(t, pid)
    decreases |s.requests|
  {
    hide Run, ProvisionerLimits.Lost;
    steps', t := steps, s;
    if s.requests != map[] {
      var id :| id in s.requests;
      steps', t := CanFinish(rules, steps, s, id, pid);
      assert |t.requests| < |s.requests| by {
        assert t.requests.Keys < s.requests.Keys;
      }
      steps', t := CanRest(rules, steps', t, pid);
    }
  }

  // A cleanup that minds a unit goes on minding it, or stops it.
  lemma CleanupStops(s: State, step: Step, id: nat, u: Unit)
    requires Enabled(s, step) && Owned(step, id) && !step.FailList? && id in s.requests
    requires Rank(s.requests[id].phase).0 <= 3 && Minds(s, s.requests[id].phase, u)
    requires u.generation >= 1 && u.pid in s.live
    ensures var t := Next(s, step);
      u.pid !in t.live || (id in t.requests && Rank(t.requests[id].phase).0 <= 3 && Minds(t, t.requests[id].phase, u))
    ensures Next(s, step).record == s.record
  {
    if step.Terminate? {
      var queue := s.requests[id].phase.queue;
      assert queue == [queue[0]] + queue[1..];
    }
  }

  /** What a cleanup minds it can stop, in its own steps alone. */
  lemma MindedIsStopped(rules: set<Rule>, steps: seq<Step>, s: State, id: nat, u: Unit)
    returns (steps': seq<Step>, t: State)
    requires Run(rules, steps, s) && id in s.requests && Rank(s.requests[id].phase).0 <= 3
    requires Minds(s, s.requests[id].phase, u) && u.generation >= 1 && u.pid in s.live
    ensures Run(rules, steps', t) && OwnSteps(steps, steps', id) && u.pid !in t.live && t.record == s.record
    decreases Rank(s.requests[id].phase).0, Rank(s.requests[id].phase).1
  {
    hide Run;
    var step := CanStep(s, id);
    steps', t := ProvisionerLimits.Go(rules, steps, s, step);
    CleanupStops(s, step, id, u);
    hide Next, Enabled, Minds;
    if u.pid in t.live {
      StepsLowerRank(s, step, id);
      steps', t := MindedIsStopped(rules, steps', t, id, u);
    }
  }

  /** From every state at rest without a recorded unit: a destroy that observes it lists the directories
      later, and by then the next generation may have been ensured and recorded there, its unit alive. By
      its own steps alone the old destroy then stops that unit, which the record goes on naming as ensured. */
  lemma DestroyMayStopNewer(steps: seq<Step>, s: State, sidecar: string, g: nat)
    returns (found: seq<Step>, m: State, steps': seq<Step>, t: State, u: Unit)
    requires Run(ALL_RULES, steps, s) && s.requests == map[]
    requires Enabled(s, BeginDestroy(0, sidecar, g, None))
    requires DestroyDecision(s, sidecar, g).record.externalRef.None?
    ensures Run(ALL_RULES, found, m) && ProvisionerLimits.GoesOn(steps + ProvisionerLimits.BothBegin(sidecar, g), found)
    ensures u.generation == g + 1 && m.record == Some(Record(s.allocation, sidecar, g + 1, Desired.Ensured, Some(u)))
    ensures u.pid !in s.spawned && u.pid in m.live
    ensures Run(ALL_RULES, steps', t) && OwnSteps(found, steps', 0) && u.pid !in t.live && t.record == m.record
  {
    hide Run;
    found, m, u := ProvisionerLimits.DestroyFindsNewer(steps, s, sidecar, g);
    steps', t := MindedIsStopped(ALL_RULES, found, m, 0, u);
  }
}
