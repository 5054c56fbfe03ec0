/**
 * The promise chain behind the store's `runExclusive`: every call is chained on the settlement of
 * the tail it found, fulfilled or rejected, and becomes the new tail.
 */
module ExclusiveQueue {
  import opened Options

  datatype Phase = Waiting | Running | Done(failed: bool)
  datatype Call = Call(after: Option<nat>, phase: Phase)

  // `starts` logs the calls whose operation was invoked, in order.
  datatype State = State(calls: seq<Call>, tail: Option<nat>, starts: seq<nat>)

  datatype Event = Enqueue | Start(i: nat) | Settle(i: nat, failed: bool)

  const EMPTY: State := State([], None, [])

  predicate Released(s: State, after: Option<nat>) {
    after.None? || (after.value < |s.calls| && s.calls[after.value].phase.Done?)
  }

  predicate Enabled(s: State, e: Event) {
    match e
    case Enqueue => true
    case Start(i) => i < |s.calls| && s.calls[i].phase == Waiting && Released(s, s.calls[i].after)
    case Settle(i, _) => i < |s.calls| && s.calls[i].phase == Running
  }

  function Next(s: State, e: Event): State
    requires Enabled(s, e)
  {
    match e
    case Enqueue => s.(calls := s.calls + [Call(s.tail, Waiting)], tail := Some(|s.calls|))
    case Start(i) => s.(calls := s.calls[i := s.calls[i].(phase := Running)], starts := s.starts + [i])
    case Settle(i, failed) => s.(calls := s.calls[i := s.calls[i].(phase := Done(failed))])
  }

  // The state a run ends in; None when some event was not possible.
  function After(events: seq<Event>): Option<State> {
    if events == [] then Some(EMPTY)
    else
      var before := After(events[..|events| - 1]);
      var last := events[|events| - 1];
      if before.Some? && Enabled(before.value, last) then Some(Next(before.value, last)) else None
  }

  ghost predicate Ordered(s: State) {
    && s.tail == (if s.calls == [] then None else Some(|s.calls| - 1))
    && |s.starts| <= |s.calls|
    && (forall i | 0 <= i < |s.calls| :: s.calls[i].after == if i == 0 then None else Some(i - 1))
    && (forall i | 0 <= i < |s.calls| :: s.calls[i].phase == Waiting <==> i >= |s.starts|)
    && (forall i | 0 <= i < |s.starts| - 1 :: s.calls[i].phase.Done?)
    && (forall i | 0 <= i < |s.starts| :: s.starts[i] == i)
  }

  /** Operations run once each, in call order, one at a time, whether or not earlier ones failed. */
  lemma {:induction false} RunsInCallOrder(events: seq<Event>)
    requires After(events).Some?
    ensures var s := After(events).value;
      && Ordered(s)
      && forall i, j | 0 <= i < |s.calls| && 0 <= j < |s.calls| ::
           s.calls[i].phase == Running && s.calls[j].phase == Running ==> i == j
  {
    if events != [] {
      RunsInCallOrder(events[..|events| - 1]);
      var before := After(events[..|events| - 1]).value;
      var last := events[|events| - 1];
      if last.Start? {
        assert last.i == |before.starts|;
      }
    }
  }

  /** A failed operation never blocks the next: until every call is settled, one can move. */
  lemma NeverStuck(events: seq<Event>, i: nat)
    requires After(events).Some? && i < |After(events).value.calls|
    requires !After(events).value.calls[i].phase.Done?
    ensures exists e: Event :: !e.Enqueue? && Enabled(After(events).value, e)
  {
    RunsInCallOrder(events);
    var s := After(events).value;
    var k := |s.starts|;
    if k > 0 && s.calls[k - 1].phase == Running {
      assert Enabled(s, Settle(k - 1, false));
    } else {
      assert Enabled(s, Start(k));
    }
  }

  function Rank(phase: Phase): nat {
    match phase
    case Waiting => 2
    case Running => 1
    case Done(_) => 0
  }

  function Total(calls: seq<Call>): nat {
    if calls == [] then 0 else Rank(calls[0].phase) + Total(calls[1..])
  }

  lemma {:induction false} TotalUpdated(calls: seq<Call>, i: nat, call: Call)
    requires i < |calls|
    ensures Total(calls[i := call]) + Rank(calls[i].phase) == Total(calls) + Rank(call.phase)
  {
    if i == 0 {
      assert calls[0 := call][1..] == calls[1..];
    } else {
      assert calls[i := call][1..] == calls[1..][i - 1 := call];
      TotalUpdated(calls[1..], i - 1, call);
    }
  }

  /** Every event but a new call brings the calls nearer to their end: two for each. */
  lemma EventsLowerTotal(s: State, e: Event)
    requires Enabled(s, e) && !e.Enqueue?
    ensures Total(Next(s, e).calls) < Total(s.calls)
  {
    var call := Next(s, e).calls[e.i];
    TotalUpdated(s.calls, e.i, call);
    assert Next(s, e).calls == s.calls[e.i := call];
  }

  /** And they can always all settle, whatever failed before, without another call. */
  lemma EveryCallCanSettle(events: seq<Event>) returns (more: seq<Event>)
    requires After(events).Some?
    ensures events <= more && forall k | |events| <= k < |more| :: !more[k].Enqueue?
    ensures After(more).Some? && forall call | call in After(more).value.calls :: call.phase.Done?
    decreases Total(After(events).value.calls)
  {
    var s := After(events).value;
    more := events;
    if i :| 0 <= i < |s.calls| && !s.calls[i].phase.Done? {
      NeverStuck(events, i);
      var e: Event :| !e.Enqueue? && Enabled(s, e);
      more := events + [e];
      assert more[..|more| - 1] == events;
      EventsLowerTotal(s, e);
      more := EveryCallCanSettle(more);
    }
  }
}
