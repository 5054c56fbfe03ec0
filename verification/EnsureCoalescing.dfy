/**
 * The provisioner's coalescing of ensure calls on one allocation. The first call registers its
 * operation; a call that finds one registered is chained on it, but is not registered itself.
 */
module EnsureCoalescing {
  import opened Options

  // `Done(false)` is a rejected promise: a thrown error, not a rejection result.
  datatype Phase = Waiting(on: nat) | Running | Done(ok: bool)

  datatype State = State(ops: seq<Phase>, registered: Option<nat>)

  const EMPTY: State := State([], None)

  datatype Event = Call | Start(i: nat) | Settle(i: nat, ok: bool) | Clear(i: nat)

  predicate Enabled(s: State, e: Event) {
    match e
    case Call => true
    case Start(i) =>
      i < |s.ops| && s.ops[i].Waiting? && s.ops[i].on < |s.ops| && s.ops[s.ops[i].on].Done?
    case Settle(i, _) => i < |s.ops| && s.ops[i] == Running
    case Clear(i) => i < |s.ops| && s.ops[i].Done? && s.registered == Some(i)
  }

  function Next(s: State, e: Event): State
    requires Enabled(s, e)
  {
    match e
    case Call =>
      if s.registered.Some? then s.(ops := s.ops + [Waiting(s.registered.value)])
      else State(s.ops + [Running], Some(|s.ops|))
    case Start(i) =>
      // A chained call runs only after fulfilment; after a rejection it rejects without running.
      s.(ops := s.ops[i := if s.ops[s.ops[i].on].ok then Running else Done(false)])
    case Settle(i, ok) => s.(ops := s.ops[i := Done(ok)])
    case Clear(i) => s.(registered := None)
  }

  // The operation is running, or still can.
  ghost predicate Pending(s: State, i: nat)
    requires i < |s.ops|
  {
    match s.ops[i]
    case Waiting(on) => on < |s.ops| && s.ops[on] != Done(false)
    case Running => true
    case Done(_) => false
  }

  // A call is admissible when nothing is pending but, at most, the registered operation.
  ghost predicate Admissible(s: State) {
    forall i | 0 <= i < |s.ops| :: Pending(s, i) ==> s.registered == Some(i)
  }

  // The state a run ends in; None when some event was not possible.
  function After(events: seq<Event>): Option<State> {
    if events == [] then Some(EMPTY)
    else
      var before := After(events[..|events| - 1]);
      var last := events[|events| - 1];
      if before.Some? && Enabled(before.value, last) then Some(Next(before.value, last)) else None
  }

  ghost predicate Careful(events: seq<Event>) {
    events != [] ==>
      Careful(events[..|events| - 1]) &&
      (events[|events| - 1].Call? ==>
        After(events[..|events| - 1]).Some? && Admissible(After(events[..|events| - 1]).value))
  }

  ghost predicate Overlaps(s: State) {
    exists i, j :: 0 <= i < j < |s.ops| && s.ops[i] == Running && s.ops[j] == Running
  }

  // An operation waits on a registered one, which never waited itself.
  ghost predicate Chained(s: State) {
    && (s.registered.Some? ==> s.registered.value < |s.ops| && !s.ops[s.registered.value].Waiting?)
    && (forall i | 0 <= i < |s.ops| && s.ops[i].Waiting? ::
          s.ops[i].on < i && (s.ops[s.ops[i].on].Done? || s.registered == Some(s.ops[i].on)))
  }

  // Of two pending operations one waits on the other, and a pending one beside the registered one
  // is not behind a failure.
  ghost predicate Lined(s: State) {
    && (forall i, j | 0 <= i < |s.ops| && 0 <= j < |s.ops| && Pending(s, i) && Pending(s, j) ::
          i == j || s.ops[i] == Waiting(j) || s.ops[j] == Waiting(i))
    && (forall i | 0 <= i < |s.ops| && Pending(s, i) && s.registered.Some? && s.registered.value < |s.ops| ::
          s.ops[s.registered.value] != Done(false))
  }

  ghost predicate Inv(s: State) {
    Chained(s) && Lined(s)
  }

  lemma {:induction false} CarefulIsInv(events: seq<Event>)
    requires After(events).Some? && Careful(events)
    ensures Inv(After(events).value)
  {
    if events != [] {
      CarefulIsInv(events[..|events| - 1]);
      StepIsInv(After(events[..|events| - 1]).value, events[|events| - 1]);
    }
  }

  lemma NothingNewPends(s: State, e: Event, i: nat)
    requires Chained(s) && Enabled(s, e) && !e.Call? && i < |s.ops| && Pending(Next(s, e), i)
    ensures Pending(s, i)
  {
  }

  lemma CallIsInv(s: State)
    requires Inv(s) && Admissible(s)
    ensures Inv(Next(s, Call))
  {
    var t := Next(s, Call);
    forall i | 0 <= i < |s.ops| && Pending(t, i) ensures Pending(s, i) {
    }
  }

  lemma StepIsInv(s: State, e: Event)
    requires Inv(s) && Enabled(s, e) && (e.Call? ==> Admissible(s))
    ensures Inv(Next(s, e))
  {
    if e.Call? {
      CallIsInv(s);
    } else {
      var t := Next(s, e);
      forall i | 0 <= i < |s.ops| && Pending(t, i) ensures Pending(s, i) {
        NothingNewPends(s, e, i);
      }
    }
  }

  /** Ensures of one allocation never overlap when every call is admissible. */
  lemma AdmissibleCallsNeverOverlap(events: seq<Event>)
    requires After(events).Some? && Careful(events)
    ensures !Overlaps(After(events).value)
  {
    CarefulIsInv(events);
    LinedNeverOverlap(After(events).value);
  }

  lemma RunsAlone(s: State, i: nat, j: nat)
    requires Inv(s) && i < |s.ops| && j < |s.ops| && s.ops[i] == Running && s.ops[j] == Running
    ensures i == j
  {
    assert Pending(s, i) && Pending(s, j);
  }

  lemma LinedNeverOverlap(s: State)
    requires Lined(s)
    ensures !Overlaps(s)
  {
    assert forall i | 0 <= i < |s.ops| && s.ops[i] == Running :: Pending(s, i);
  }

  lemma Then(events: seq<Event>, e: Event) returns (longer: seq<Event>)
    requires After(events).Some? && Enabled(After(events).value, e)
    ensures longer == events + [e] && After(longer) == Some(Next(After(events).value, e))
  {
    longer := events + [e];
    assert longer[..|longer| - 1] == events;
  }

  // Some operation beside the registered one can still run; it waits for that one, if that one runs.
  lemma PendingBeside(s: State) returns (w: nat)
    requires Inv(s) && !Admissible(s)
    ensures w < |s.ops| && Pending(s, w) && s.registered != Some(w)
    ensures s.registered.Some? ==>
      var r := s.registered.value;
      r < |s.ops| && (s.ops[r] == Done(true) || (s.ops[r] == Running && s.ops[w] == Waiting(r)))
  {
    w :| 0 <= w < |s.ops| && Pending(s, w) && s.registered != Some(w);
    if s.registered.Some? && s.ops[s.registered.value] == Running {
      assert Pending(s, s.registered.value);
    }
  }

  lemma CallIsChained(s: State)
    requires Chained(s)
    ensures Chained(Next(s, Call))
  {
  }

  // A waiting operation that can still run gets to run, once the one before it has settled.
  lemma GetsToRun(events: seq<Event>, w: nat) returns (more: seq<Event>)
    requires After(events).Some? && Chained(After(events).value)
    requires w < |After(events).value.ops| && After(events).value.ops[w].Waiting? && Pending(After(events).value, w)
    ensures events <= more && After(more).Some? && forall k | |events| <= k < |more| :: !more[k].Call?
    ensures var s := After(events).value;
      After(more).value == s.(ops := s.ops[s.ops[w].on := Done(true)][w := Running])
  {
    hide After, Careful;
    var s := After(events).value;
    var f := s.ops[w].on;
    more := events;
    if s.ops[f] == Running {
      more := Then(more, Settle(f, true));
    }
    more := Then(more, Start(w));
  }

  /** The condition is exact: after careful calls, one inadmissible call lets two ensures overlap. */
  lemma InadmissibleCallCanOverlap(events: seq<Event>) returns (more: seq<Event>)
    requires After(events).Some? && Careful(events) && !Admissible(After(events).value)
    ensures events + [Call] <= more && forall k | |events| < k < |more| :: !more[k].Call?
    ensures After(more).Some? && Overlaps(After(more).value)
  {
    CarefulIsInv(events);
    hide After, Careful, Lined;
    var s := After(events).value;
    var w := PendingBeside(s);
    CallIsChained(s);
    hide Chained, Admissible;
    var y := |s.ops|;
    more := Then(events, Call);
    if s.ops[w].Waiting? {
      more := GetsToRun(more, w);
    }
    var t := After(more).value;
    if t.ops[y].Waiting? {
      more := Then(more, Start(y));
    }
    var end := After(more).value;
    assert end.ops[w] == Running && end.ops[y] == Running;
  }

  lemma StepIsChained(s: State, e: Event)
    requires Chained(s) && Enabled(s, e)
    ensures Chained(Next(s, e))
  {
  }

  lemma {:induction false} RunIsChained(events: seq<Event>)
    requires After(events).Some?
    ensures Chained(After(events).value)
  {
    if events != [] {
      hide Chained, Next;
      RunIsChained(events[..|events| - 1]);
      StepIsChained(After(events[..|events| - 1]).value, events[|events| - 1]);
    }
  }

  // The first n operations are over.
  ghost predicate OverTo(s: State, n: nat) {
    n <= |s.ops| && forall i | 0 <= i < n :: s.ops[i].Done?
  }

  lemma {:induction false} FirstCanSettle(events: seq<Event>, n: nat) returns (more: seq<Event>)
    requires After(events).Some? && n <= |After(events).value.ops|
    ensures events <= more && forall k | |events| <= k < |more| :: !more[k].Call?
    ensures After(more).Some? && |After(more).value.ops| == |After(events).value.ops| && OverTo(After(more).value, n)
  {
    more := events;
    if n > 0 {
      more := FirstCanSettle(events, n - 1);
      RunIsChained(more);
      hide After, OverTo;
      if After(more).value.ops[n - 1].Waiting? {
        StartsNext(After(more).value, n - 1);
        more := Then(more, Start(n - 1));
      }
      SettlesNext(After(more).value, n - 1);
      if After(more).value.ops[n - 1] == Running {
        more := Then(more, Settle(n - 1, true));
      }
    }
  }

  lemma StartsNext(s: State, i: nat)
    requires Chained(s) && OverTo(s, i) && i < |s.ops| && s.ops[i].Waiting?
    ensures Enabled(s, Start(i)) && OverTo(Next(s, Start(i)), i) && !Next(s, Start(i)).ops[i].Waiting?
  {
  }

  lemma SettlesNext(s: State, i: nat)
    requires OverTo(s, i) && i < |s.ops| && !s.ops[i].Waiting?
    ensures if s.ops[i] == Running then OverTo(Next(s, Settle(i, true)), i + 1) else OverTo(s, i + 1)
  {
  }

  /** No call blocks the later ones for good, whatever failed: from the state of every run, careful or not, all
      calls can settle without another one, and a call that comes then runs at once, behind none. */
  lemma CallsCanSettle(events: seq<Event>) returns (more: seq<Event>)
    requires After(events).Some?
    ensures events <= more && forall k | |events| <= k < |more| :: !more[k].Call?
    ensures After(more).Some? && var s := After(more).value;
      && OverTo(s, |s.ops|) && |s.ops| == |After(events).value.ops|
      && Next(s, Call).ops == s.ops + [Running]
  {
    more := FirstCanSettle(events, |After(events).value.ops|);
    RunIsChained(more);
    hide After;
    var s := After(more).value;
    if s.registered.Some? {
      more := Then(more, Clear(s.registered.value));
    }
  }

  /** A call chained on one that was rejected is rejected with it and never runs, whatever comes. */
  lemma {:induction false} RejectedTogether(events: seq<Event>, more: seq<Event>, i: nat, on: nat)
    requires events <= more && After(events).Some? && After(more).Some?
    requires i < |After(events).value.ops| && After(events).value.ops[i] == Waiting(on)
    requires on < |After(events).value.ops| && After(events).value.ops[on] == Done(false)
    ensures var ops := After(more).value.ops;
      && i < |ops| && on < |ops| && ops[on] == Done(false)
      && (ops[i] == Waiting(on) || ops[i] == Done(false))
    decreases |more|
  {
    if events != more {
      RejectedTogether(events, more[..|more| - 1], i, on);
    }
  }
}
