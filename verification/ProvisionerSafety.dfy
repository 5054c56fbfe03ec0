/** No orphan process survives: the inductive invariant of the provisioner and what it gives at rest. */
module ProvisionerSafety {
  import opened Options
  import opened AllocationRecord
  import opened Provisioner

  ghost predicate Known(s: State, u: Unit) {
    u.pid in s.spawned && s.spawned[u.pid] == u.generation && u.generation >= 1 && u.pid > 0
  }

  // The one process whose pid was ever filed under its generation.
  ghost predicate Filed(s: State, u: Unit) {
    Known(s, u) && u.generation in s.written && s.written[u.generation] == u.pid
  }

  ghost predicate HasFile(s: State, u: Unit) {
    u.generation in s.dirs && u.generation in s.pidFiles && s.pidFiles[u.generation] == u.pid
  }

  // An ensure of g that found no unit: the record still has none, or moved on.
  ghost predicate Open(s: State, g: nat) {
    s.record.Some? &&
    (s.record.value.generation > g ||
     (s.record.value.generation == g && (s.record.value.desired == Destroyed || s.record.value.externalRef.None?)))
  }

  // A generation with a filed pid never starts another unit.
  ghost predicate Closed(s: State, g: nat) {
    s.record.Some? &&
    (s.record.value.generation > g ||
     (s.record.value.generation == g &&
      (s.record.value.desired == Destroyed || s.record.value.externalRef.Some? || g in s.unrecorded ||
       BeingRecorded(s, g))))
  }

  ghost predicate BeingRecorded(s: State, g: nat) {
    exists id :: id in s.requests && Recorder(s.requests[id].phase, g)
  }

  ghost predicate Recorder(phase: Phase, g: nat) {
    phase.Written? && phase.unit.generation == g
  }

  ghost predicate PhaseOk(s: State, r: Request) {
    match r.phase
    case Starting(g) => r.isEnsure && g >= 1 && g !in s.written && Open(s, g)
    case Prepared(g) => r.isEnsure && g >= 1 && g !in s.written && Open(s, g)
    case Spawned(u) => r.isEnsure && Known(s, u) && u.generation !in s.written && Open(s, u.generation)
    case Aborting(u) => r.isEnsure && Known(s, u)
    case Written(u) => r.isEnsure && Filed(s, u) && Open(s, u.generation)
    case Listing(keep) => keep.Some? ==> Filed(s, keep.value)
    case Reading(keep, todo, found) => (keep.Some? ==> Filed(s, keep.value)) && forall u | u in found :: Filed(s, u)
    case Stopping(queue) => forall u | u in queue :: Filed(s, u)
    case Removing(v, queue) => Filed(s, v) && v.pid !in s.live && forall u | u in queue :: Filed(s, u)
  }

  // The request will stop u, or has yet to make it known.
  ghost predicate Minds(s: State, phase: Phase, u: Unit) {
    match phase
    case Spawned(v) => v == u
    case Aborting(v) => v == u
    case Written(v) => v == u
    case Listing(keep) => keep != Some(u) && HasFile(s, u)
    case Reading(keep, todo, found) => keep != Some(u) && ((u.generation in todo && HasFile(s, u)) || u in found)
    case Stopping(queue) => u in queue
    case Removing(v, queue) => u in queue
    case _ => false
  }

  ghost predicate Unfiled(phase: Phase, u: Unit) {
    (phase.Spawned? || phase.Aborting?) && phase.unit == u
  }

  ghost function UnitOf(s: State, pid: nat): Unit
    requires pid in s.spawned
  {
    Unit(s.spawned[pid], pid)
  }

  ghost predicate Attended(s: State, u: Unit) {
    exists id :: id in s.requests && Minds(s, s.requests[id].phase, u)
  }

  ghost predicate Unwritten(s: State, u: Unit) {
    exists id :: id in s.requests && Unfiled(s.requests[id].phase, u)
  }

  // The record itself accounts for u: it names u, or it is ensured and names nothing yet.
  ghost predicate Expected(s: State, u: Unit) {
    s.record.Some? && s.record.value.desired == Ensured &&
    (s.record.value.externalRef.None? || s.record.value.externalRef == Some(u))
  }

  ghost predicate RecordOk(s: State) {
    && (forall g | g in s.unrecorded :: s.record.Some? && g <= s.record.value.generation)
    && (s.record.Some? ==> s.record.value.allocationId == s.allocation)
    && UnitOk(s)
  }

  ghost predicate UnitOk(s: State) {
    s.record.Some? && s.record.value.externalRef.Some? ==>
      var u := s.record.value.externalRef.value;
      Filed(s, u) && u.generation <= s.record.value.generation &&
      (s.record.value.desired == Ensured ==> u.generation == s.record.value.generation)
  }

  ghost predicate FilesOk(s: State) {
    && (forall g | g in s.pidFiles :: g in s.dirs && Filed(s, Unit(g, s.pidFiles[g])))
    && (forall g | g in s.written :: Filed(s, Unit(g, s.written[g])) && Closed(s, g))
  }

  ghost predicate RequestsOk(s: State) {
    && (forall id | id in s.requests :: PhaseOk(s, s.requests[id]))
    && (forall i, j | i in s.requests && j in s.requests && s.requests[i].isEnsure && s.requests[j].isEnsure :: i == j)
  }

  ghost predicate Accounted(s: State, pid: nat) {
    pid in s.spawned && s.spawned[pid] >= 1 &&
    var u := UnitOf(s, pid);
    (HasFile(s, u) || Unwritten(s, u)) && (pid in s.missed || Expected(s, u) || Attended(s, u))
  }

  ghost predicate Inv(s: State) {
    && RecordOk(s)
    && FilesOk(s)
    && RequestsOk(s)
    && (s.record.None? ==> s.requests == map[] && s.live == {})
    && (forall pid | pid in s.live :: Accounted(s, pid))
  }

  // A step of request `id` leaves what every other request does for u as it was.
  lemma OthersKeep(s: State, t: State, id: nat, u: Unit)
    requires forall i | i in s.requests && i != id :: i in t.requests && t.requests[i] == s.requests[i]
    requires HasFile(s, u) ==> HasFile(t, u)
    ensures Unwritten(s, u) ==> Unwritten(t, u) || (id in s.requests && Unfiled(s.requests[id].phase, u))
    ensures Attended(s, u) ==> Attended(t, u) || (id in s.requests && Minds(s, s.requests[id].phase, u))
  {
  }

  lemma RecordersKeep(s: State, t: State, id: nat)
    requires forall i | i in s.requests && i != id :: i in t.requests && t.requests[i] == s.requests[i]
    ensures forall g | BeingRecorded(s, g) ::
      BeingRecorded(t, g) || (id in s.requests && Recorder(s.requests[id].phase, g))
  {
  }

  // The request itself keeps minding u.
  lemma SelfKeeps(t: State, id: nat, u: Unit)
    requires id in t.requests
    ensures Minds(t, t.requests[id].phase, u) ==> Attended(t, u)
    ensures Unfiled(t.requests[id].phase, u) ==> Unwritten(t, u)
  {
  }

  // Processes may die at any time.
  lemma ShrinkKeeps(s: State, dead: nat)
    requires Inv(s)
    ensures Inv(s.(live := s.live - {dead}))
  {
    var t := s.(live := s.live - {dead});
    SameRequests(s, t);
    ShrinkRequests(s, dead);
    forall pid | pid in t.live ensures Accounted(t, pid) {
      assert Accounted(s, pid);
    }
  }

  lemma ShrinkRequests(s: State, dead: nat)
    requires Inv(s)
    ensures RequestsOk(s.(live := s.live - {dead})) && FilesOk(s.(live := s.live - {dead}))
  {
  }

  lemma SameRequests(s: State, t: State)
    requires t == s.(live := t.live)
    ensures forall g :: BeingRecorded(s, g) ==> BeingRecorded(t, g)
    ensures forall u :: Unwritten(s, u) ==> Unwritten(t, u)
    ensures forall u :: Attended(s, u) ==> Attended(t, u)
  {
  }

  // A step of request `id` leaves every other request's phase in order.
  lemma RequestsKeep(s: State, t: State, id: nat)
    requires RequestsOk(s) && t.spawned == s.spawned && t.written == s.written && t.live <= s.live
    requires forall g :: Open(s, g) ==> Open(t, g)
    requires forall i | i in t.requests && i != id :: i in s.requests && t.requests[i] == s.requests[i]
    requires id in t.requests ==> PhaseOk(t, t.requests[id])
    requires id in t.requests && t.requests[id].isEnsure ==>
      forall i | i in s.requests && s.requests[i].isEnsure :: i == id
    ensures RequestsOk(t)
  {
    forall i | i in t.requests ensures PhaseOk(t, t.requests[i]) {
      assert i != id ==> PhaseOk(s, s.requests[i]);
    }
  }

  // A request that only moves on, without forgetting a live unit it minds.
  ghost predicate MovesOn(s: State, id: nat, phase: Phase)
    requires id in s.requests
  {
    var was := s.requests[id].phase;
    && PhaseOk(s, s.requests[id].(phase := phase))
    && (was.Written? ==> Recording(s, was.unit).None?)
    && (forall u | Unfiled(was, u) :: Unfiled(phase, u))
    && (forall u: Unit | u.pid in s.live && Minds(s, was, u) :: Minds(s, phase, u))
  }

  lemma EnterAccounts(s: State, id: nat, phase: Phase, pid: nat)
    requires id in s.requests && MovesOn(s, id, phase) && pid in s.live && Accounted(s, pid)
    ensures Accounted(Enter(s, id, phase), pid)
  {
    var t := Enter(s, id, phase);
    OthersKeep(s, t, id, UnitOf(t, pid));
    SelfKeeps(t, id, UnitOf(t, pid));
  }

  lemma EnterFiles(s: State, id: nat, phase: Phase)
    requires Inv(s) && id in s.requests && MovesOn(s, id, phase)
    ensures FilesOk(Enter(s, id, phase))
  {
    RecordersKeep(s, Enter(s, id, phase), id);
  }

  lemma EnterRequests(s: State, id: nat, phase: Phase)
    requires Inv(s) && id in s.requests && MovesOn(s, id, phase)
    ensures RequestsOk(Enter(s, id, phase))
  {
    RequestsKeep(s, Enter(s, id, phase), id);
  }

  lemma EnterKeeps(s: State, id: nat, phase: Phase)
    requires Inv(s) && id in s.requests && MovesOn(s, id, phase)
    ensures Inv(Enter(s, id, phase))
  {
    EnterFiles(s, id, phase);
    EnterRequests(s, id, phase);
    forall pid | pid in Enter(s, id, phase).live ensures Accounted(Enter(s, id, phase), pid) {
      EnterAccounts(s, id, phase, pid);
    }
  }

  // A request that ends with no live unit left to mind, but for some that it overlooks.
  ghost predicate MindsOnly(s: State, id: nat, overlooked: set<nat>)
    requires id in s.requests
  {
    !s.requests[id].phase.Written? &&
    forall u: Unit | u.pid in s.live ::
      !Unfiled(s.requests[id].phase, u) && (Minds(s, s.requests[id].phase, u) ==> u.pid in overlooked)
  }

  function LeaveMissing(s: State, id: nat, overlooked: set<nat>): State {
    Leave(s, id).(missed := s.missed + overlooked)
  }

  lemma LeaveAccounts(s: State, id: nat, overlooked: set<nat>, pid: nat)
    requires id in s.requests && MindsOnly(s, id, overlooked) && pid in s.live && Accounted(s, pid)
    ensures Accounted(LeaveMissing(s, id, overlooked), pid)
  {
    OthersKeep(s, LeaveMissing(s, id, overlooked), id, UnitOf(s, pid));
  }

  lemma LeaveRequests(s: State, id: nat, overlooked: set<nat>)
    requires Inv(s) && id in s.requests && MindsOnly(s, id, overlooked)
    ensures RequestsOk(LeaveMissing(s, id, overlooked)) && FilesOk(LeaveMissing(s, id, overlooked))
  {
    var t := LeaveMissing(s, id, overlooked);
    RecordersKeep(s, t, id);
    RequestsKeep(s, t, id);
  }

  lemma LeaveKeeps(s: State, id: nat, overlooked: set<nat>)
    requires Inv(s) && id in s.requests && MindsOnly(s, id, overlooked)
    ensures Inv(LeaveMissing(s, id, overlooked))
    ensures overlooked == {} ==> LeaveMissing(s, id, overlooked) == Leave(s, id)
  {
    assert s.missed + {} == s.missed;
    LeaveRequests(s, id, overlooked);
    forall pid | pid in s.live ensures Accounted(LeaveMissing(s, id, overlooked), pid) {
      LeaveAccounts(s, id, overlooked, pid);
    }
  }

  lemma OverlookedAreMinded(s: State, id: nat)
    requires Inv(s) && id in s.requests && (s.requests[id].phase.Listing? || s.requests[id].phase.Reading?)
    ensures MindsOnly(s, id, Overlooked(s, s.requests[id].phase))
  {
  }

  // A listing that throws leaves what it was to stop, each with its pid file.
  lemma FailListKeeps(s: State, step: Step)
    requires Inv(s) && step.FailList? && Enabled(s, step)
    ensures Inv(Next(s, step))
  {
    OverlookedAreMinded(s, step.id);
    LeaveKeeps(s, step.id, Overlooked(s, s.requests[step.id].phase));
  }

  // A unit that is not filed yet is attended by the request that started it.
  lemma UnwrittenIsAttended(s: State, u: Unit)
    requires Unwritten(s, u)
    ensures Attended(s, u)
  {
    var id :| id in s.requests && Unfiled(s.requests[id].phase, u);
    assert Minds(s, s.requests[id].phase, u);
  }

  // A request that begins to list minds every filed unit but the one it keeps.
  lemma ListingAccounts(s: State, t: State, id: nat, pid: nat)
    requires pid in s.live && Accounted(s, pid) && id in t.requests && t.requests[id].phase.Listing?
    requires t.spawned == s.spawned && t.pidFiles == s.pidFiles && t.dirs == s.dirs
    requires forall i | i in s.requests && i != id :: i in t.requests && t.requests[i] == s.requests[i]
    requires id in s.requests ==> s.requests[id].phase.Written?
    requires t.requests[id].phase.keep == Some(UnitOf(s, pid)) ==> Expected(t, UnitOf(s, pid))
    ensures Accounted(t, pid)
  {
    var u := UnitOf(s, pid);
    OthersKeep(s, t, id, u);
    SelfKeeps(t, id, u);
    if Unwritten(t, u) {
      UnwrittenIsAttended(t, u);
    }
  }

  lemma BeginEnsureAccounts(s: State, step: Step, pid: nat)
    requires Inv(s) && step.BeginEnsure? && Enabled(s, step) && Disciplined(s, step) && pid in s.live
    ensures Accounted(Next(s, step), pid)
  {
    var t := Next(s, step);
    assert Accounted(s, pid);
    if t.requests[step.id].phase.Listing? {
      ListingAccounts(s, t, step.id, pid);
    } else {
      OthersKeep(s, t, step.id, UnitOf(t, pid));
      SelfKeeps(t, step.id, UnitOf(t, pid));
    }
  }

  lemma BeginEnsureKeeps(s: State, step: Step)
    requires Inv(s) && step.BeginEnsure? && Enabled(s, step) && Disciplined(s, step)
    ensures Inv(Next(s, step))
  {
    BeginEnsureFiles(s, step);
    BeginEnsureRequests(s, step);
    forall pid | pid in Next(s, step).live ensures Accounted(Next(s, step), pid) {
      BeginEnsureAccounts(s, step, pid);
    }
  }

  lemma BeginEnsureFiles(s: State, step: Step)
    requires Inv(s) && step.BeginEnsure? && Enabled(s, step) && Disciplined(s, step)
    ensures var t := Next(s, step); RecordOk(t) && FilesOk(t)
  {
    RecordersKeep(s, Next(s, step), step.id);
  }

  // An ensure that has a unit to start starts a generation that never had one.
  lemma BeginEnsureRequests(s: State, step: Step)
    requires Inv(s) && step.BeginEnsure? && Enabled(s, step) && Disciplined(s, step)
    ensures RequestsOk(Next(s, step))
  {
    var t := Next(s, step);
    assert Obeys(s, step, NoOverlap) && Obeys(s, step, Listable) && Obeys(s, step, NoRetry);
    assert PhaseOk(t, t.requests[step.id]);
    RequestsKeep(s, t, step.id);
  }

  // A destroy takes over the recorded unit, or whatever the directories hold.
  lemma BeginDestroyAccounts(s: State, step: Step, pid: nat)
    requires Inv(s) && step.BeginDestroy? && Enabled(s, step) && Disciplined(s, step) && pid in s.live
    ensures Accounted(Next(s, step), pid)
  {
    var t := Next(s, step);
    assert Accounted(s, pid);
    if t.requests[step.id].phase.Listing? {
      ListingAccounts(s, t, step.id, pid);
    } else {
      OthersKeep(s, t, step.id, UnitOf(t, pid));
      SelfKeeps(t, step.id, UnitOf(t, pid));
    }
  }

  lemma BeginDestroyRecords(s: State, step: Step)
    requires Inv(s) && step.BeginDestroy? && Enabled(s, step) && Disciplined(s, step)
    ensures var t := Next(s, step); RecordOk(t) && FilesOk(t)
  {
  }

  lemma BeginDestroyRequests(s: State, step: Step)
    requires Inv(s) && step.BeginDestroy? && Enabled(s, step) && Disciplined(s, step)
    ensures RequestsOk(Next(s, step))
  {
    var t := Next(s, step);
    BeginDestroyPhase(s, step);
    RequestsKeep(s, t, step.id);
  }

  lemma BeginDestroyPhase(s: State, step: Step)
    requires Inv(s) && step.BeginDestroy? && Enabled(s, step) && Disciplined(s, step)
    ensures PhaseOk(Next(s, step), Next(s, step).requests[step.id])
  {
    assert Obeys(s, step, NoForeignRef);
  }

  lemma BeginDestroyKeeps(s: State, step: Step)
    requires Inv(s) && step.BeginDestroy? && Enabled(s, step) && Disciplined(s, step)
    ensures Inv(Next(s, step))
  {
    BeginDestroyRecords(s, step);
    BeginDestroyRequests(s, step);
    forall pid | pid in Next(s, step).live ensures Accounted(Next(s, step), pid) {
      BeginDestroyAccounts(s, step, pid);
    }
  }

  lemma MakeDirAccounts(s: State, step: Step, pid: nat)
    requires Inv(s) && step.MakeDir? && Enabled(s, step) && pid in s.live
    ensures Accounted(Next(s, step), pid)
  {
    var t := Next(s, step);
    assert Accounted(s, pid);
    OthersKeep(s, t, step.id, UnitOf(t, pid));
    SelfKeeps(t, step.id, UnitOf(t, pid));
  }

  lemma MakeDirKeeps(s: State, step: Step)
    requires Inv(s) && step.MakeDir? && Enabled(s, step)
    ensures Inv(Next(s, step))
  {
    var t := Next(s, step);
    RecordersKeep(s, t, step.id);
    RequestsKeep(s, t, step.id);
    forall pid | pid in t.live ensures Accounted(t, pid) {
      MakeDirAccounts(s, step, pid);
    }
  }

  lemma SpawnAccounts(s: State, step: Step, pid: nat)
    requires Inv(s) && step.Spawn? && Enabled(s, step) && pid in Next(s, step).live
    ensures Accounted(Next(s, step), pid)
  {
    var t := Next(s, step);
    assert pid != step.pid ==> Accounted(s, pid);
    OthersKeep(s, t, step.id, UnitOf(t, pid));
    SelfKeeps(t, step.id, UnitOf(t, pid));
  }

  lemma SpawnFiles(s: State, step: Step)
    requires Inv(s) && step.Spawn? && Enabled(s, step)
    ensures var t := Next(s, step); RecordOk(t) && FilesOk(t)
  {
  }

  lemma SpawnRequests(s: State, step: Step)
    requires Inv(s) && step.Spawn? && Enabled(s, step)
    ensures RequestsOk(Next(s, step))
  {
    var t := Next(s, step);
    forall i | i in t.requests ensures PhaseOk(t, t.requests[i]) {
      assert PhaseOk(s, s.requests[i]);
    }
  }

  lemma SpawnKeeps(s: State, step: Step)
    requires Inv(s) && step.Spawn? && Enabled(s, step)
    ensures Inv(Next(s, step))
  {
    SpawnFiles(s, step);
    SpawnRequests(s, step);
    forall pid | pid in Next(s, step).live ensures Accounted(Next(s, step), pid) {
      SpawnAccounts(s, step, pid);
    }
  }

  lemma WritePidAccounts(s: State, step: Step, pid: nat)
    requires Inv(s) && step.WritePid? && Enabled(s, step) && pid in Next(s, step).live
    ensures Accounted(Next(s, step), pid)
  {
    var t := Next(s, step);
    assert Accounted(s, pid);
    OthersKeep(s, t, step.id, UnitOf(t, pid));
    SelfKeeps(t, step.id, UnitOf(t, pid));
  }

  lemma WritePidFiles(s: State, step: Step)
    requires Inv(s) && step.WritePid? && Enabled(s, step)
    ensures var t := Next(s, step); RecordOk(t) && FilesOk(t)
  {
    var t := Next(s, step);
    RecordersKeep(s, t, step.id);
    assert Recorder(t.requests[step.id].phase, t.requests[step.id].phase.unit.generation);
  }

  lemma WritePidRequests(s: State, step: Step)
    requires Inv(s) && step.WritePid? && Enabled(s, step)
    ensures RequestsOk(Next(s, step))
  {
    var t := Next(s, step);
    forall i | i in t.requests ensures PhaseOk(t, t.requests[i]) {
      assert PhaseOk(s, s.requests[i]);
    }
  }

  lemma WritePidKeeps(s: State, step: Step)
    requires Inv(s) && step.WritePid? && Enabled(s, step)
    ensures Inv(Next(s, step))
  {
    WritePidFiles(s, step);
    WritePidRequests(s, step);
    forall pid | pid in Next(s, step).live ensures Accounted(Next(s, step), pid) {
      WritePidAccounts(s, step, pid);
    }
  }

  lemma AbortKeeps(s: State, step: Step)
    requires Inv(s) && step.Abort? && Enabled(s, step)
    ensures Inv(Next(s, step))
  {
    var pid := s.requests[step.id].phase.unit.pid;
    ShrinkKeeps(s, pid);
    LeaveKeeps(s.(live := s.live - {pid}), step.id, {});
  }

  lemma SupersededKeeps(s: State, step: Step)
    requires Inv(s) && step.RecordStarted? && Enabled(s, step)
    requires Recording(s, s.requests[step.id].phase.unit).None?
    ensures Inv(Next(s, step))
  {
    EnterKeeps(s, step.id, Stopping([s.requests[step.id].phase.unit]));
  }

  // The one ensure is done with an open generation; the others are cleanup.
  lemma RecordStartedRequests(s: State, step: Step)
    requires Inv(s) && step.RecordStarted? && Enabled(s, step) && Recording(s, s.requests[step.id].phase.unit).Some?
    ensures RequestsOk(Next(s, step))
  {
    var t := Next(s, step);
    forall i | i in t.requests ensures PhaseOk(t, t.requests[i]) {
      assert PhaseOk(s, s.requests[i]) && (i != step.id ==> !s.requests[i].isEnsure);
    }
  }

  lemma RecordStartedKeeps(s: State, step: Step)
    requires Inv(s) && step.RecordStarted? && Enabled(s, step) && Recording(s, s.requests[step.id].phase.unit).Some?
    ensures Inv(Next(s, step))
  {
    var t := Next(s, step);
    RecordersKeep(s, t, step.id);
    RecordStartedRequests(s, step);
    forall pid | pid in t.live ensures Accounted(t, pid) {
      ListingAccounts(s, t, step.id, pid);
    }
  }

  lemma FailRecordKeeps(s: State, step: Step)
    requires Inv(s) && step.FailRecord? && Enabled(s, step) && Disciplined(s, step)
    ensures Inv(Next(s, step))
  {
    var t := Next(s, step);
    RecordersKeep(s, t, step.id);
    forall pid | pid in t.live ensures Accounted(t, pid) {
      assert Accounted(s, pid);
      OthersKeep(s, t, step.id, UnitOf(t, pid));
    }
  }

  lemma ReadPidKeeps(s: State, step: Step)
    requires Inv(s) && step.ReadPid? && Enabled(s, step)
    ensures Inv(Next(s, step))
  {
    EnterKeeps(s, step.id, Next(s, step).requests[step.id].phase);
  }

  lemma DoneReadingKeeps(s: State, step: Step)
    requires Inv(s) && step.DoneReading? && Enabled(s, step)
    ensures Inv(Next(s, step))
  {
    var phase := s.requests[step.id].phase;
    EnterKeeps(s, step.id, Stopping(Except(phase.found, phase.keep)));
  }

  lemma TerminateKeeps(s: State, step: Step)
    requires Inv(s) && step.Terminate? && Enabled(s, step)
    ensures Inv(Next(s, step))
  {
    var queue := s.requests[step.id].phase.queue;
    var t := s.(live := s.live - {queue[0].pid});
    ShrinkKeeps(s, queue[0].pid);
    assert PhaseOk(t, t.requests[step.id]) && queue[0] in queue;
    assert queue == [queue[0]] + queue[1..];
    EnterKeeps(t, step.id, Removing(queue[0], queue[1..]));
  }

  lemma RemoveDirAccounts(s: State, step: Step, pid: nat)
    requires Inv(s) && step.RemoveDir? && Enabled(s, step) && pid in Next(s, step).live
    ensures Accounted(Next(s, step), pid)
  {
    var t := Next(s, step);
    assert Accounted(s, pid);
    OthersKeep(s, t, step.id, UnitOf(t, pid));
    SelfKeeps(t, step.id, UnitOf(t, pid));
  }

  lemma RemoveDirFiles(s: State, step: Step)
    requires Inv(s) && step.RemoveDir? && Enabled(s, step)
    ensures var t := Next(s, step); RecordOk(t) && FilesOk(t)
  {
    var t := Next(s, step);
    RecordersKeep(s, t, step.id);
  }

  lemma RemoveDirRequests(s: State, step: Step)
    requires Inv(s) && step.RemoveDir? && Enabled(s, step)
    ensures RequestsOk(Next(s, step))
  {
    RequestsKeep(s, Next(s, step), step.id);
  }

  lemma RemoveDirKeeps(s: State, step: Step)
    requires Inv(s) && step.RemoveDir? && Enabled(s, step)
    ensures Inv(Next(s, step))
  {
    RemoveDirFiles(s, step);
    RemoveDirRequests(s, step);
    forall pid | pid in Next(s, step).live ensures Accounted(Next(s, step), pid) {
      RemoveDirAccounts(s, step, pid);
    }
  }

  // The steps that only leave, or only move on.
  lemma LeavingKeeps(s: State, step: Step)
    requires Inv(s) && (step.FailStart? || step.Finish?) && Enabled(s, step)
    ensures Inv(Next(s, step))
  {
    LeaveKeeps(s, step.id, {});
  }

  lemma MovingKeeps(s: State, step: Step)
    requires Inv(s) && (step.FailPid? || step.ReadDir?) && Enabled(s, step)
    ensures Inv(Next(s, step))
  {
    EnterKeeps(s, step.id, Next(s, step).requests[step.id].phase);
  }

  lemma RecordingKeeps(s: State, step: Step)
    requires Inv(s) && step.RecordStarted? && Enabled(s, step)
    ensures Inv(Next(s, step))
  {
    hide Inv, Next;
    if Recording(s, s.requests[step.id].phase.unit).Some? {
      RecordStartedKeeps(s, step);
    } else {
      SupersededKeeps(s, step);
    }
  }

  lemma DeathKeeps(s: State, step: Step)
    requires Inv(s) && step.Die? && Enabled(s, step)
    ensures Inv(Next(s, step))
  {
    ShrinkKeeps(s, step.pid);
  }

  lemma StepKeeps(s: State, step: Step)
    requires Inv(s) && Enabled(s, step) && Disciplined(s, step)
    ensures Inv(Next(s, step))
  {
    hide Inv, Next, Enabled, Disciplined;
    match step
    case BeginEnsure(_, _, _) => BeginEnsureKeeps(s, step);
    case BeginDestroy(_, _, _, _) => BeginDestroyKeeps(s, step);
    case MakeDir(_) => MakeDirKeeps(s, step);
    case FailStart(_) => LeavingKeeps(s, step);
    case Spawn(_, _) => SpawnKeeps(s, step);
    case WritePid(_) => WritePidKeeps(s, step);
    case FailPid(_) => MovingKeeps(s, step);
    case Abort(_) => AbortKeeps(s, step);
    case RecordStarted(_) => RecordingKeeps(s, step);
    case FailRecord(_) => FailRecordKeeps(s, step);
    case ReadDir(_) => MovingKeeps(s, step);
    case FailList(_) => FailListKeeps(s, step);
    case ReadPid(_, _) => ReadPidKeeps(s, step);
    case DoneReading(_) => DoneReadingKeeps(s, step);
    case Terminate(_) => TerminateKeeps(s, step);
    case RemoveDir(_) => RemoveDirKeeps(s, step);
    case Finish(_) => LeavingKeeps(s, step);
    case Die(_) => DeathKeeps(s, step);
  }

  // Without a failed listing nothing is missed.
  lemma NothingMissed(s: State, step: Step)
    requires Enabled(s, step) && !step.FailList? && s.missed == {}
    ensures Next(s, step).missed == {}
  {
  }

  lemma {:induction false} ContinuesKeeps(rules: set<Rule>, s: State, steps: seq<Step>, end: State)
    requires CALLER_RULES <= rules && Inv(s) && Continues(rules, s, steps, end)
    ensures Inv(end)
    ensures NoFailedList in rules && s.missed == {} ==> end.missed == {}
    decreases |steps|
  {
    hide Inv;
    if steps != [] {
      var init, last := steps[..|steps| - 1], steps[|steps| - 1];
      var before :| Continues(rules, s, init, before) && Moves(rules, before, last, end);
      ContinuesKeeps(rules, s, init, before);
      hide Continues;
      StepKeeps(before, last);
      if NoFailedList in rules {
        assert Obeys(before, last, NoFailedList);
        if s.missed == {} {
          NothingMissed(before, last);
        }
      }
    }
  }

  lemma RunKeeps(rules: set<Rule>, steps: seq<Step>, s: State)
    requires CALLER_RULES <= rules && Run(rules, steps, s)
    ensures Inv(s) && (NoFailedList in rules ==> s.missed == {})
  {
    ContinuesKeeps(rules, Empty(s.allocation), steps, s);
  }

  // At rest: nothing lives under a destroyed record, and at most the recorded unit under an ensured one,
  // but for some processes; and each live one is named by its pid file.
  ghost predicate NoOrphans(s: State, but: set<nat>) {
    && (s.record.None? ==> s.live == {})
    && (s.record.Some? && s.record.value.desired == Destroyed ==> s.live <= but)
    && (s.record.Some? && s.record.value.desired == Ensured && s.record.value.externalRef.Some? ==>
          s.live <= {s.record.value.externalRef.value.pid} + but)
    && (forall pid | pid in s.live :: exists g :: g in s.pidFiles && s.pidFiles[g] == pid)
  }

  lemma InvAtRest(s: State)
    requires Inv(s) && s.requests == map[]
    ensures NoOrphans(s, s.missed)
  {
    forall pid | pid in s.live
      ensures (pid in s.missed || Expected(s, UnitOf(s, pid))) && exists g :: g in s.pidFiles && s.pidFiles[g] == pid
    {
      assert Accounted(s, pid);
      assert HasFile(s, UnitOf(s, pid));
    }
  }

  /** No orphan process survives. In every interleaving that obeys all rules, once no request is in
      flight: nothing lives if the record is destroyed, at most the recorded unit lives if the record
      is ensured with one, and otherwise every live process is still named by its pid file. */
  lemma NoOrphanAtRest(steps: seq<Step>, s: State)
    requires Run(ALL_RULES, steps, s) && s.requests == map[]
    ensures NoOrphans(s, {})
  {
    RunKeeps(ALL_RULES, steps, s);
    InvAtRest(s);
  }

  /** Where listings may fail, the processes left over are among those that a failed one was to stop since
      a sweep last began; they too keep their pid files. */
  lemma FailedListingsLeaveFiles(steps: seq<Step>, s: State)
    requires Run(CALLER_RULES, steps, s) && s.requests == map[]
    ensures NoOrphans(s, s.missed)
  {
    RunKeeps(CALLER_RULES, steps, s);
    InvAtRest(s);
  }

  /** So a failed listing only postpones: whichever listings failed before, once a request begins to list,
      and from then on none fails, no orphan process survives. */
  lemma NextSweepRepairs(steps: seq<Step>, s: State, step: Step, m: State, more: seq<Step>, end: State)
    requires Run(CALLER_RULES, steps, s) && Moves(CALLER_RULES, s, step, m)
    requires !step.Die? && step.id in m.requests && m.requests[step.id].phase.Listing?
    requires Continues(ALL_RULES, m, more, end) && end.requests == map[]
    ensures NoOrphans(end, {})
  {
    RunKeeps(CALLER_RULES, steps, s);
    StepKeeps(s, step);
    BeginsToList(s, step);
    ContinuesKeeps(ALL_RULES, m, more, end);
    InvAtRest(end);
  }

  lemma BeginsToList(s: State, step: Step)
    requires Enabled(s, step) && !step.Die? && step.id in Next(s, step).requests
    requires Next(s, step).requests[step.id].phase.Listing?
    ensures Next(s, step).missed == {}
  {
  }

  /** While requests are in flight, every live process is the expected one or is on the way to being
      stopped or recorded by one of them, unless a failed listing missed it. */
  lemma NoProcessIsForgotten(rules: set<Rule>, steps: seq<Step>, s: State, pid: nat)
    requires CALLER_RULES <= rules && Run(rules, steps, s) && pid in s.live
    ensures pid in s.spawned
    ensures Expected(s, UnitOf(s, pid)) || Attended(s, UnitOf(s, pid)) || (NoFailedList !in rules && pid in s.missed)
  {
    RunKeeps(rules, steps, s);
    assert Accounted(s, pid);
  }

  /** Generation fencing of references: a recorded unit is never newer than the record, and belongs to
      exactly the recorded generation while that generation is ensured. */
  lemma RecordedUnitIsFenced(steps: seq<Step>, s: State)
    requires Run(CALLER_RULES, steps, s) && s.record.Some? && s.record.value.externalRef.Some?
    ensures var u := s.record.value.externalRef.value;
      && u.pid in s.spawned && s.spawned[u.pid] == u.generation
      && u.pid > 0 && 1 <= u.generation <= s.record.value.generation
      && (s.record.value.desired == Ensured ==> u.generation == s.record.value.generation)
    ensures s.record.value.allocationId == s.allocation
  {
    RunKeeps(CALLER_RULES, steps, s);
  }
}
