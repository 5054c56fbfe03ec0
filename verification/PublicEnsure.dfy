/**
 * The provisioner behind its public `ensure`: each ensure is an operation of the coalescing, so that careful
 * calls are all that the rule against overlap asks for.
 */
module PublicEnsure {
  import opened Options
  import C = EnsureCoalescing
  import opened Provisioner
  import ProvisionerSafety
  import ProvisionerLimits
  import ProvisionerRules

  // An ensure request carries the number of the operation it is part of.
  datatype Joint = Joint(calls: C.State, units: Provisioner.State)

  datatype Step = OfCalls(event: C.Event) | OfUnits(step: Provisioner.Step)

  predicate HasEnsure(units: Provisioner.State, id: nat) {
    id in units.requests && units.requests[id].isEnsure
  }

  // An operation observes while it runs, and settles once its request is over.
  predicate Possible(s: Joint, step: Step) {
    match step
    case OfCalls(event) => C.Enabled(s.calls, event) && (event.Settle? ==> !HasEnsure(s.units, event.i))
    case OfUnits(step) =>
      Enabled(s.units, step) && (step.BeginEnsure? ==> step.id < |s.calls.ops| && s.calls.ops[step.id] == C.Running)
  }

  function Then(s: Joint, step: Step): Joint
    requires Possible(s, step)
  {
    match step
    case OfCalls(event) => s.(calls := C.Next(s.calls, event))
    case OfUnits(step) => s.(units := Next(s.units, step))
  }

  // Careful calls, and steps of the units that obey some rules.
  ghost predicate Careful(rules: set<Rule>, s: Joint, step: Step)
    requires Possible(s, step)
  {
    match step
    case OfCalls(event) => event.Call? ==> C.Admissible(s.calls)
    case OfUnits(step) => forall rule | rule in rules :: Obeys(s.units, step, rule)
  }

  ghost predicate Reaches(rules: set<Rule>, allocation: string, steps: seq<Step>, end: Joint) {
    if steps == [] then end == Joint(C.EMPTY, Empty(allocation))
    else
      var last := steps[|steps| - 1];
      exists before :: Reaches(rules, allocation, steps[..|steps| - 1], before) && Takes(rules, before, last, end)
  }

  ghost predicate Takes(rules: set<Rule>, s: Joint, step: Step, t: Joint) {
    Possible(s, step) && t == Then(s, step) && Careful(rules, s, step)
  }

  function UnitSteps(steps: seq<Step>): seq<Provisioner.Step> {
    if steps == [] then []
    else
      var last := steps[|steps| - 1];
      UnitSteps(steps[..|steps| - 1]) + if last.OfUnits? then [last.step] else []
  }

  // Every ensure request is part of a running operation.
  ghost predicate Inv(s: Joint) {
    C.Inv(s.calls) &&
    forall id: nat | HasEnsure(s.units, id) :: id < |s.calls.ops| && s.calls.ops[id] == C.Running
  }

  lemma CallsKeep(s: Joint, event: C.Event)
    requires Inv(s) && Possible(s, OfCalls(event)) && (event.Call? ==> C.Admissible(s.calls))
    ensures Inv(Then(s, OfCalls(event)))
  {
    C.StepIsInv(s.calls, event);
  }

  lemma UnitsKeep(s: Joint, step: Provisioner.Step)
    requires Inv(s) && Possible(s, OfUnits(step))
    ensures Inv(Then(s, OfUnits(step)))
  {
    forall id | HasEnsure(Next(s.units, step), id)
      ensures HasEnsure(s.units, id) || (step.BeginEnsure? && step.id == id)
    {
      EnsuresComeFromBegin(s.units, step, id);
    }
  }

  lemma EnsuresComeFromBegin(s: Provisioner.State, step: Provisioner.Step, id: nat)
    requires Enabled(s, step) && HasEnsure(Next(s, step), id)
    ensures HasEnsure(s, id) || (step.BeginEnsure? && step.id == id)
  {
  }

  // The operations that run never overlap, so an ensure that begins is alone.
  lemma BeginsAlone(s: Joint, step: Provisioner.Step)
    requires Inv(s) && Possible(s, OfUnits(step))
    ensures Obeys(s.units, step, NoOverlap)
  {
    hide C.Inv;
    if step.BeginEnsure? {
      forall id: nat | HasEnsure(s.units, id) ensures id == step.id {
        C.RunsAlone(s.calls, id, step.id);
      }
      assert forall id | id in s.units.requests && s.units.requests[id].isEnsure :: HasEnsure(s.units, id);
    }
  }

  /** Careful calls obey the rule against overlap: what they do to the units is a run that obeys it. */
  lemma {:induction false} CarefulCallsObeyNoOverlap(rules: set<Rule>, allocation: string, steps: seq<Step>, end: Joint)
    requires Reaches(rules, allocation, steps, end)
    ensures Inv(end) && Continues(rules + {NoOverlap}, Empty(allocation), UnitSteps(steps), end.units)
    decreases |steps|
  {
    if steps != [] {
      var init, last := steps[..|steps| - 1], steps[|steps| - 1];
      var before :| Reaches(rules, allocation, init, before) && Takes(rules, before, last, end);
      CarefulCallsObeyNoOverlap(rules, allocation, init, before);
      hide Reaches, Continues, Inv;
      match last
      case OfCalls(event) =>
        CallsKeep(before, event);
        assert UnitSteps(init) + [] == UnitSteps(init);
      case OfUnits(step) =>
        UnitsKeep(before, step);
        BeginsAlone(before, step);
        ContinuesWith(rules + {NoOverlap}, Empty(allocation), UnitSteps(init), before.units, step);
    }
  }

  lemma ContinuesWith(rules: set<Rule>, s: Provisioner.State, steps: seq<Provisioner.Step>,
                      t: Provisioner.State, step: Provisioner.Step)
    requires Continues(rules, s, steps, t) && Enabled(t, step) && forall rule | rule in rules :: Obeys(t, step, rule)
    ensures Continues(rules, s, steps + [step], Next(t, step))
  {
    var more := steps + [step];
    assert more[..|more| - 1] == steps && more[|more| - 1] == step;
    assert Continues(rules, s, steps, t) && Moves(rules, t, step, Next(t, step));
  }

  lemma {:induction false} AllocationStays(rules: set<Rule>, s: Provisioner.State, steps: seq<Provisioner.Step>,
                                           end: Provisioner.State)
    requires Continues(rules, s, steps, end)
    ensures end.allocation == s.allocation
    decreases |steps|
  {
    hide Next, Enabled, Obeys;
    if steps != [] {
      var before :| Continues(rules, s, steps[..|steps| - 1], before) && Moves(rules, before, steps[|steps| - 1], end);
      AllocationStays(rules, s, steps[..|steps| - 1], before);
      StepKeepsAllocation(before, steps[|steps| - 1]);
    }
  }

  lemma StepKeepsAllocation(s: Provisioner.State, step: Provisioner.Step)
    requires Enabled(s, step)
    ensures Next(s, step).allocation == s.allocation
  {
  }

  lemma CarefulUnitsRun(allocation: string, steps: seq<Step>, end: Joint)
    requires Reaches(ALL_RULES - {NoOverlap}, allocation, steps, end)
    ensures Run(ALL_RULES, UnitSteps(steps), end.units)
  {
    var rules := ALL_RULES - {NoOverlap};
    CarefulCallsObeyNoOverlap(rules, allocation, steps, end);
    assert rules + {NoOverlap} == ALL_RULES;
    AllocationStays(ALL_RULES, Empty(allocation), UnitSteps(steps), end.units);
  }

  /** So the public ensure leaves no orphan: calls that are careful, and otherwise the four other rules. */
  lemma CarefulCallsLeaveNoOrphan(allocation: string, steps: seq<Step>, end: Joint)
    requires Reaches(ALL_RULES - {NoOverlap}, allocation, steps, end) && end.units.requests == map[]
    ensures ProvisionerSafety.NoOrphans(end.units, {})
  {
    CarefulUnitsRun(allocation, steps, end);
    ProvisionerSafety.NoOrphanAtRest(UnitSteps(steps), end.units);
  }

  // Any further steps: careful or not, and the units by some rules.
  ghost predicate Extends(rules: set<Rule>, s: Joint, steps: seq<Step>, end: Joint) {
    if steps == [] then end == s
    else
      var last := steps[|steps| - 1];
      exists before :: Extends(rules, s, steps[..|steps| - 1], before) && Makes(rules, before, last, end)
  }

  ghost predicate Makes(rules: set<Rule>, s: Joint, step: Step, t: Joint) {
    Possible(s, step) && t == Then(s, step) &&
    (step.OfUnits? ==> forall rule | rule in rules :: Obeys(s.units, step.step, rule))
  }

  lemma ExtendsBy(rules: set<Rule>, s: Joint, steps: seq<Step>, t: Joint, step: Step, end: Joint)
    requires Extends(rules, s, steps, t) && Makes(rules, t, step, end)
    ensures Extends(rules, s, steps + [step], end)
  {
    var more := steps + [step];
    assert more[..|more| - 1] == steps && more[|more| - 1] == step;
  }

  lemma {:induction false} ExtendsFurther(rules: set<Rule>, s: Joint, a: seq<Step>, t: Joint, b: seq<Step>, end: Joint)
    requires Extends(rules, s, a, t) && Extends(rules, t, b, end)
    ensures Extends(rules, s, a + b, end)
    decreases |b|
  {
    if b == [] {
      assert a + b == a;
    } else {
      var init, last := b[..|b| - 1], b[|b| - 1];
      var before :| Extends(rules, t, init, before) && Makes(rules, before, last, end);
      ExtendsFurther(rules, s, a, t, init, before);
      ExtendsBy(rules, s, a + init, before, last, end);
      assert a + b == (a + init) + [last];
    }
  }

  function EventsOf(steps: seq<Step>): seq<C.Event> {
    if steps == [] then []
    else
      var last := steps[|steps| - 1];
      EventsOf(steps[..|steps| - 1]) + if last.OfCalls? then [last.event] else []
  }

  lemma {:induction false} CallsAreCareful(rules: set<Rule>, allocation: string, steps: seq<Step>, end: Joint)
    requires Reaches(rules, allocation, steps, end)
    ensures C.After(EventsOf(steps)) == Some(end.calls) && C.Careful(EventsOf(steps))
    decreases |steps|
  {
    if steps != [] {
      var init, last := steps[..|steps| - 1], steps[|steps| - 1];
      var before :| Reaches(rules, allocation, init, before) && Takes(rules, before, last, end);
      CallsAreCareful(rules, allocation, init, before);
      match last
      case OfCalls(event) =>
        var events := EventsOf(init) + [event];
        assert events[..|events| - 1] == EventsOf(init) && events[|events| - 1] == event;
      case OfUnits(_) =>
        assert EventsOf(init) + [] == EventsOf(init);
    }
  }

  function CallSteps(events: seq<C.Event>): seq<Step> {
    seq(|events|, i requires 0 <= i < |events| => OfCalls(events[i]))
  }

  function OwnSteps(steps: seq<Provisioner.Step>): seq<Step> {
    seq(|steps|, i requires 0 <= i < |steps| => OfUnits(steps[i]))
  }

  // While no ensure is in flight, any events of the calls are possible.
  lemma {:induction false} CallsExtend(rules: set<Rule>, s: Joint, events: seq<C.Event>, more: seq<C.Event>)
    requires C.After(events) == Some(s.calls) && events <= more && C.After(more).Some? && s.units.requests == map[]
    ensures Extends(rules, s, CallSteps(more[|events|..]), Joint(C.After(more).value, s.units))
    decreases |more|
  {
    if more == events {
      assert CallSteps(more[|events|..]) == [];
    } else {
      var init, last := more[..|more| - 1], more[|more| - 1];
      CallsExtend(rules, s, events, init);
      var before, end := Joint(C.After(init).value, s.units), Joint(C.After(more).value, s.units);
      ExtendsBy(rules, s, CallSteps(init[|events|..]), before, OfCalls(last), end);
      assert CallSteps(more[|events|..]) == CallSteps(init[|events|..]) + [OfCalls(last)];
    }
  }

  lemma {:induction false} OneEnd(rules: set<Rule>, s: Provisioner.State, steps: seq<Provisioner.Step>,
                                  a: Provisioner.State, b: Provisioner.State)
    requires Continues(rules, s, steps, a) && Continues(rules, s, steps, b)
    ensures a == b
    decreases |steps|
  {
    if steps != [] {
      var init, last := steps[..|steps| - 1], steps[|steps| - 1];
      var x :| Continues(rules, s, init, x) && Moves(rules, x, last, a);
      var y :| Continues(rules, s, init, y) && Moves(rules, y, last, b);
      OneEnd(rules, s, init, x, y);
    }
  }

  // Steps of the units are possible whose ensures are of running operations.
  lemma {:induction false} UnitsExtend(rules: set<Rule>, start: Provisioner.State, s: Joint,
                                       steps: seq<Provisioner.Step>, more: seq<Provisioner.Step>,
                                       end: Provisioner.State)
    requires Continues(rules, start, steps, s.units) && Continues(rules, start, more, end) && steps <= more
    requires forall k | |steps| <= k < |more| && more[k].BeginEnsure? ::
               more[k].id < |s.calls.ops| && s.calls.ops[more[k].id] == C.Running
    ensures Extends(rules, s, OwnSteps(more[|steps|..]), Joint(s.calls, end))
    decreases |more|
  {
    hide Next, Enabled, Obeys;
    if more == steps {
      OneEnd(rules, start, steps, s.units, end);
      assert OwnSteps(more[|steps|..]) == [];
    } else {
      var init, last := more[..|more| - 1], more[|more| - 1];
      var before :| Continues(rules, start, init, before) && Moves(rules, before, last, end);
      UnitsExtend(rules, start, s, steps, init, before);
      assert more[|more| - 1] == last;
      ExtendsBy(rules, s, OwnSteps(init[|steps|..]), Joint(s.calls, before), OfUnits(last), Joint(s.calls, end));
      assert OwnSteps(more[|steps|..]) == OwnSteps(init[|steps|..]) + [OfUnits(last)];
    }
  }

  // One inadmissible call, and no other, lets two operations run.
  lemma CallOverlaps(rules: set<Rule>, allocation: string, steps: seq<Step>, s: Joint)
    returns (more: seq<Step>, t: Joint, i: nat, j: nat)
    requires Reaches(rules, allocation, steps, s) && s.units.requests == map[] && !C.Admissible(s.calls)
    ensures Extends(rules, s, more, t) && t.units == s.units
    ensures more != [] && more[0] == OfCalls(C.Call) && forall k | 0 < k < |more| :: more[k] != OfCalls(C.Call)
    ensures i < j < |t.calls.ops| && t.calls.ops[i] == C.Running && t.calls.ops[j] == C.Running
  {
    var events := EventsOf(steps);
    CallsAreCareful(rules, allocation, steps, s);
    hide Reaches, C.Admissible, C.Careful;
    var later := C.InadmissibleCallCanOverlap(events);
    t := Joint(C.After(later).value, s.units);
    i, j :| 0 <= i < j < |t.calls.ops| && t.calls.ops[i] == C.Running && t.calls.ops[j] == C.Running;
    hide C.After;
    CallsExtend(rules, s, events, later);
    more := CallSteps(later[|events|..]);
    assert later[|events|] == (events + [C.Call])[|events|];
  }

  // Two operations that run can have the units lose a process.
  lemma RunningLose(units: seq<Provisioner.Step>, s: Joint, i: nat, j: nat, sidecar: string, g: nat)
    returns (more: seq<Step>, t: Joint, pid: nat)
    requires ProvisionerLimits.AtRest(ALL_RULES, units, s.units)
    requires i < j < |s.calls.ops| && s.calls.ops[i] == C.Running && s.calls.ops[j] == C.Running
    requires ProvisionerRules.Starts(s.units, sidecar, g) && g >= 1 && g !in s.units.unrecorded
    ensures Extends(ALL_RULES - {NoOverlap}, s, more, t) && forall step | step in more :: step.OfUnits?
    ensures t.units.requests == map[] && ProvisionerLimits.Lost(t.units, pid) && ProvisionerRules.Orphan(t.units, pid)
  {
    var rules, start := ALL_RULES - {NoOverlap}, Empty(s.units.allocation);
    ProvisionerLimits.FewerRules(ALL_RULES, rules, start, units, s.units);
    hide ProvisionerLimits.Lost, ProvisionerLimits.GoesOn, ProvisionerRules.Starts, ProvisionerRules.Orphan, Continues;
    var longer, end;
    longer, end, pid := ProvisionerRules.OverlapLosesProcess(units, s.units, i, j, sidecar, g);
    OnlyBothBegin(units, longer, i, j, sidecar, g);
    t := Joint(s.calls, end);
    UnitsExtend(rules, start, s, units, longer, end);
    more := OwnSteps(longer[|units|..]);
  }

  /** Carefulness is needed: from every state at rest that careful calls have led to, where an ensure would
      start a unit, one inadmissible call, and no other, can be continued to rest with a process lost. */
  lemma InadmissibleCallLosesProcess(allocation: string, steps: seq<Step>, s: Joint, sidecar: string, g: nat)
    returns (more: seq<Step>, t: Joint, pid: nat)
    requires Reaches(ALL_RULES - {NoOverlap}, allocation, steps, s) && s.units.requests == map[]
    requires !C.Admissible(s.calls)
    requires ProvisionerRules.Starts(s.units, sidecar, g) && g >= 1 && g !in s.units.unrecorded
    ensures Extends(ALL_RULES - {NoOverlap}, s, more, t) && more != [] && more[0] == OfCalls(C.Call)
    ensures forall k | 0 < k < |more| :: more[k] != OfCalls(C.Call)
    ensures t.units.requests == map[] && ProvisionerLimits.Lost(t.units, pid) && ProvisionerRules.Orphan(t.units, pid)
  {
    hide Reaches, Extends, C.Admissible, ProvisionerLimits.Lost, Run, Obeys;
    hide ProvisionerRules.Starts, ProvisionerRules.Orphan;
    var rules := ALL_RULES - {NoOverlap};
    CarefulUnitsRun(allocation, steps, s);
    var calls, mid, i, j := CallOverlaps(rules, allocation, steps, s);
    var units;
    units, t, pid := RunningLose(UnitSteps(steps), mid, i, j, sidecar, g);
    more := calls + units;
    assert forall k | |calls| <= k < |more| :: more[k] in units;
    ExtendsFurther(rules, s, calls, mid, units, t);
  }

  lemma OnlyBothBegin(steps: seq<Provisioner.Step>, more: seq<Provisioner.Step>, i: nat, j: nat,
                      sidecar: string, g: nat)
    requires ProvisionerLimits.GoesOn(steps + [BeginEnsure(i, sidecar, g), BeginEnsure(j, sidecar, g)], more)
    ensures steps <= more
    ensures forall k | |steps| <= k < |more| && more[k].BeginEnsure? :: more[k].id == i || more[k].id == j
  {
    var begun := steps + [BeginEnsure(i, sidecar, g), BeginEnsure(j, sidecar, g)];
    assert more[..|begun|] == begun;
    assert more[|steps|] == begun[|steps|] && more[|steps| + 1] == begun[|steps| + 1];
  }
}
