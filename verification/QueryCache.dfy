/**
 * Write-behind persistence of the query cache: cache events coalesce into pending writes and deletes,
 * a scheduled flush turns them into one transaction, and transactions commit in order.
 */
module QueryCache {
  import opened Options

  datatype Entry = Entry(queryKey: seq<string>, data: string, dataUpdatedAt: nat)
  type Store = map<string, Entry>

  // A cache event: a query left the cache, or was added or updated and now has this state.
  datatype Event =
    | Removed(hash: string)
    | Changed(hash: string, isInvalidated: bool, isSuccess: bool, queryKey: seq<string>,
              data: Option<string>, dataUpdatedAt: nat)
    | Unrelated

  datatype Batch = Batch(deletes: set<string>, writes: Store)

  // `transactions` were opened by earlier flushes and have not committed yet.
  datatype State = State(pending: Batch, scheduled: bool, transactions: seq<Batch>, store: Store)

  const NOTHING: Batch := Batch({}, map[])

  function OnEvent(s: State, e: Event): State {
    match e
    case Unrelated => s
    case Removed(hash) =>
      s.(pending := Batch(s.pending.deletes + {hash}, s.pending.writes - {hash}), scheduled := true)
    case Changed(hash, isInvalidated, isSuccess, queryKey, data, dataUpdatedAt) =>
      if isInvalidated then
        var dropped := s.pending.writes - {hash};
        if dataUpdatedAt > 0 then s.(pending := Batch(s.pending.deletes + {hash}, dropped), scheduled := true)
        else s.(pending := s.pending.(writes := dropped))
      else if isSuccess && data.Some? && dataUpdatedAt > 0 then
        var entry := Entry(queryKey, data.value, dataUpdatedAt);
        s.(pending := Batch(s.pending.deletes - {hash}, s.pending.writes[hash := entry]), scheduled := true)
      else s
  }

  function Flush(s: State): State {
    if s.pending == NOTHING then s.(scheduled := false)
    else s.(pending := NOTHING, scheduled := false, transactions := s.transactions + [s.pending])
  }

  // One transaction: its deletes, then its puts.
  function Apply(store: Store, batch: Batch): Store {
    (store - batch.deletes) + batch.writes
  }

  function ApplyAll(store: Store, batches: seq<Batch>): Store {
    if batches == [] then store else Apply(ApplyAll(store, batches[..|batches| - 1]), batches[|batches| - 1])
  }

  function Commit(s: State): State {
    if s.transactions == [] then s
    else s.(store := Apply(s.store, s.transactions[0]), transactions := s.transactions[1..])
  }

  class QueryCachePersistence {
    const debounced: bool
    var pendingWrites: Store
    var pendingDeletes: set<string>
    var timer: bool
    var microtaskScheduled: bool
    var transactions: seq<Batch>
    var store: Store

    ghost function Abstract(): State
      reads this
    {
      State(Batch(pendingDeletes, pendingWrites), if debounced then timer else microtaskScheduled, transactions, store)
    }

    constructor (debounced: bool, store: Store)
      ensures Abstract() == State(NOTHING, false, [], store)
    {
      this.debounced := debounced;
      pendingWrites, pendingDeletes, timer, microtaskScheduled := map[], {}, false, false;
      transactions, this.store := [], store;
    }

    method ScheduleFlush()
      modifies `timer, `microtaskScheduled
      ensures Abstract() == old(Abstract()).(scheduled := true)
    {
      if debounced {
        timer := true;
      } else {
        microtaskScheduled := true;
      }
    }

    method Handle(e: Event)
      modifies this
      ensures Abstract() == OnEvent(old(Abstract()), e)
    {
      match e
      case Unrelated =>
      case Removed(hash) =>
        pendingWrites := pendingWrites - {hash};
        pendingDeletes := pendingDeletes + {hash};
        ScheduleFlush();
      case Changed(hash, isInvalidated, isSuccess, queryKey, data, dataUpdatedAt) =>
        if isInvalidated {
          pendingWrites := pendingWrites - {hash};
          if dataUpdatedAt > 0 {
            pendingDeletes := pendingDeletes + {hash};
            ScheduleFlush();
          }
          return;
        }
        if isSuccess && data.Some? && dataUpdatedAt > 0 {
          pendingDeletes := pendingDeletes - {hash};
          pendingWrites := pendingWrites[hash := Entry(queryKey, data.value, dataUpdatedAt)];
          ScheduleFlush();
        }
    }

    method RunFlush()
      modifies this
      ensures Abstract() == Flush(old(Abstract()))
    {
      timer, microtaskScheduled := false, false;
      var batch := Batch(pendingDeletes, pendingWrites);
      pendingWrites, pendingDeletes := map[], {};
      if batch != NOTHING {
        transactions := transactions + [batch];
      }
    }

    method CommitNext()
      modifies this
      ensures Abstract() == Commit(old(Abstract()))
    {
      if transactions != [] {
        store, transactions := Apply(store, transactions[0]), transactions[1..];
      }
    }
  }

  // What the store will hold once everything under way has been written.
  function Settled(s: State): Store {
    Apply(Written(s), s.pending)
  }

  function Written(s: State): Store {
    ApplyAll(s.store, s.transactions)
  }

  // The event applied to a store at once.
  function Direct(store: Store, e: Event): Store {
    match e
    case Unrelated => store
    case Removed(hash) => store - {hash}
    case Changed(hash, isInvalidated, isSuccess, queryKey, data, dataUpdatedAt) =>
      if isInvalidated then if dataUpdatedAt > 0 then store - {hash} else store
      else if isSuccess && data.Some? && dataUpdatedAt > 0 then
        store[hash := Entry(queryKey, data.value, dataUpdatedAt)]
      else store
  }

  // An invalidation of hydrated data (timestamp 0) that drops a write the store does not have yet.
  predicate DropsWrite(s: State, e: Event) {
    e.Changed? && e.isInvalidated && e.dataUpdatedAt == 0 && e.hash in s.pending.writes &&
    !(e.hash in Written(s) && Written(s)[e.hash] == s.pending.writes[e.hash])
  }

  ghost predicate Inv(s: State) {
    && s.pending.writes.Keys !! s.pending.deletes
    && (s.pending != NOTHING ==> s.scheduled)
  }

  lemma EventKeepsInv(s: State, e: Event)
    requires Inv(s)
    ensures Inv(OnEvent(s, e))
  {
  }

  lemma ZeroInvalidation(store: Store, pending: Batch, hash: string)
    requires pending.writes.Keys !! pending.deletes
    ensures var dropped := Batch(pending.deletes, pending.writes - {hash});
      Apply(store, dropped) == Apply(store, pending) <==>
      hash !in pending.writes || (hash in store && store[hash] == pending.writes[hash])
  {
  }

  lemma EvictIsDirect(store: Store, pending: Batch, hash: string)
    ensures Apply(store, Batch(pending.deletes + {hash}, pending.writes - {hash})) == Apply(store, pending) - {hash}
  {
  }

  lemma WriteIsDirect(store: Store, pending: Batch, hash: string, entry: Entry)
    ensures Apply(store, Batch(pending.deletes - {hash}, pending.writes[hash := entry])) ==
            Apply(store, pending)[hash := entry]
  {
  }

  /** Coalescing is exact: an event changes what will be stored just as if it were applied at once,
      unless, and only unless, it drops an unflushed write. */
  lemma EventIsDirectUnlessItDrops(s: State, e: Event)
    requires Inv(s)
    ensures Settled(OnEvent(s, e)) == Direct(Settled(s), e) <==> !DropsWrite(s, e)
  {
    hide Apply;
    match e
    case Unrelated =>
    case Removed(hash) => EvictIsDirect(Written(s), s.pending, hash);
    case Changed(hash, isInvalidated, isSuccess, queryKey, data, dataUpdatedAt) =>
      if isInvalidated && dataUpdatedAt == 0 {
        ZeroInvalidation(Written(s), s.pending, hash);
      } else if isInvalidated {
        EvictIsDirect(Written(s), s.pending, hash);
      } else if isSuccess && data.Some? && dataUpdatedAt > 0 {
        WriteIsDirect(Written(s), s.pending, hash, Entry(queryKey, data.value, dataUpdatedAt));
      }
  }

  lemma {:induction false} ApplyAllFirst(store: Store, batches: seq<Batch>)
    requires batches != []
    ensures ApplyAll(store, batches) == ApplyAll(Apply(store, batches[0]), batches[1..])
  {
    if |batches| > 1 {
      ApplyAllFirst(store, batches[..|batches| - 1]);
      assert batches[..|batches| - 1][1..] == batches[1..][..|batches| - 2];
    }
  }

  lemma FlushSettlesTheSame(s: State)
    ensures Settled(Flush(s)) == Settled(s) && (Inv(s) ==> Inv(Flush(s)))
  {
  }

  lemma CommitSettlesTheSame(s: State)
    ensures Settled(Commit(s)) == Settled(s) && (Inv(s) ==> Inv(Commit(s)))
  {
    if s.transactions != [] {
      ApplyAllFirst(s.store, s.transactions);
    }
  }

  // A run: cache events, flushes at any time, and commits in the order the transactions were opened.
  datatype Step = Cache(e: Event) | FlushNow | CommitNow

  function Do(s: State, step: Step): State {
    match step
    case Cache(e) => OnEvent(s, e)
    case FlushNow => Flush(s)
    case CommitNow => Commit(s)
  }

  function After(s: State, steps: seq<Step>): State {
    if steps == [] then s else Do(After(s, steps[..|steps| - 1]), steps[|steps| - 1])
  }

  function DirectAfter(store: Store, steps: seq<Step>): Store {
    if steps == [] then store
    else
      var before := DirectAfter(store, steps[..|steps| - 1]);
      var last := steps[|steps| - 1];
      if last.Cache? then Direct(before, last.e) else before
  }

  ghost predicate NeverDrops(s: State, steps: seq<Step>) {
    forall i | 0 <= i < |steps| && steps[i].Cache? :: !DropsWrite(After(s, steps[..i]), steps[i].e)
  }

  /** For any events and any flush and commit timing, the pending sets stay disjoint and pending work
      always has a flush scheduled. */
  lemma {:induction false} PendingIsScheduled(store: Store, steps: seq<Step>)
    ensures Inv(After(State(NOTHING, false, [], store), steps))
  {
    if steps != [] {
      var init, last := steps[..|steps| - 1], steps[|steps| - 1];
      PendingIsScheduled(store, init);
      var s := After(State(NOTHING, false, [], store), init);
      match last
      case Cache(e) => EventKeepsInv(s, e);
      case FlushNow => FlushSettlesTheSame(s);
      case CommitNow => CommitSettlesTheSame(s);
    }
  }

  /** As long as no event drops an unflushed write, the store with everything under way equals the
      events applied one by one. */
  lemma {:induction false} RunIsDirect(store: Store, steps: seq<Step>)
    requires NeverDrops(State(NOTHING, false, [], store), steps)
    ensures var s := After(State(NOTHING, false, [], store), steps);
      Settled(s) == DirectAfter(store, steps)
  {
    var start := State(NOTHING, false, [], store);
    if steps == [] {
      assert store - {} + map[] == store;
    } else {
      var init, last := steps[..|steps| - 1], steps[|steps| - 1];
      forall i | 0 <= i < |init| && init[i].Cache? ensures !DropsWrite(After(start, init[..i]), init[i].e) {
        assert init[..i] == steps[..i] && init[i] == steps[i];
      }
      RunIsDirect(store, init);
      PendingIsScheduled(store, init);
      var s := After(start, init);
      match last
      case Cache(e) => EventIsDirectUnlessItDrops(s, e);
      case FlushNow => FlushSettlesTheSame(s);
      case CommitNow => CommitSettlesTheSame(s);
    }
  }

  function WriteOf(hash: string, entry: Entry): Event {
    Changed(hash, false, true, entry.queryKey, Some(entry.data), entry.dataUpdatedAt)
  }

  // The invalidation of data that hydration seeded with timestamp 0.
  function ZeroInvalidationOf(hash: string, entry: Entry): Event {
    Changed(hash, true, true, entry.queryKey, Some(entry.data), 0)
  }

  /** Every run can be continued to such a drop: a write, and before its flush an invalidation with
      timestamp 0, lose the write exactly when the store did not have it already. */
  lemma EveryRunCanDrop(store: Store, steps: seq<Step>, hash: string, entry: Entry)
    requires entry.dataUpdatedAt > 0
    ensures var start := State(NOTHING, false, [], store);
      var s := After(start, steps);
      var more := steps + [Cache(WriteOf(hash, entry))] + [Cache(ZeroInvalidationOf(hash, entry))];
      && (hash in Settled(After(start, more)) && Settled(After(start, more))[hash] == entry <==>
            hash in Written(s) && Written(s)[hash] == entry)
      && hash in DirectAfter(store, more) && DirectAfter(store, more)[hash] == entry
  {
    var start := State(NOTHING, false, [], store);
    var once := steps + [Cache(WriteOf(hash, entry))];
    var more := once + [Cache(ZeroInvalidationOf(hash, entry))];
    assert once[..|once| - 1] == steps && more[..|more| - 1] == once;
  }

  /** A flush leaves nothing pending and nothing scheduled, and writes nothing by itself: what was pending is
      one transaction behind the open ones. */
  lemma FlushOpens(s: State)
    ensures var t := Flush(s);
      && t.pending == NOTHING && !t.scheduled && t.store == s.store && Written(t) == Settled(s)
      && |t.transactions| == |s.transactions| + if s.pending == NOTHING then 0 else 1
  {
    var t := Flush(s);
    if s.pending == NOTHING {
      ApplyNothing(Written(s));
    } else {
      assert t.transactions[..|t.transactions| - 1] == s.transactions;
    }
  }

  lemma ApplyNothing(store: Store)
    ensures Apply(store, NOTHING) == store
  {
  }

  /** Each commit closes the oldest transaction, for good: the store then has it, the others are left. */
  lemma CommitCloses(s: State)
    requires s.transactions != []
    ensures var t := Commit(s);
      && t.store == Apply(s.store, s.transactions[0]) && t.transactions == s.transactions[1..]
      && |t.transactions| == |s.transactions| - 1 && Written(t) == Written(s)
      && t.pending == s.pending && t.scheduled == s.scheduled
  {
    ApplyAllFirst(s.store, s.transactions);
  }

  function Commits(n: nat): seq<Step> {
    seq(n, i => CommitNow)
  }

  lemma {:induction false} CommitsWriteAll(s: State, n: nat)
    requires n == |s.transactions|
    ensures var t := After(s, Commits(n));
      t.store == Written(s) && t.transactions == [] && t.pending == s.pending && t.scheduled == s.scheduled
    decreases n
  {
    if n > 0 {
      CommitCloses(s);
      CommitsWriteAll(Commit(s), n - 1);
      FirstCommit(s, n);
    }
  }

  lemma {:induction false} FirstCommit(s: State, n: nat)
    requires n > 0
    ensures After(s, Commits(n)) == After(Commit(s), Commits(n - 1))
  {
    assert Commits(n)[..n - 1] == Commits(n - 1);
    if n > 1 {
      FirstCommit(s, n - 1);
      assert Commits(n - 1)[..n - 2] == Commits(n - 2);
    }
  }

  lemma {:induction false} AfterConcat(s: State, a: seq<Step>, b: seq<Step>)
    ensures After(s, a + b) == After(After(s, a), b)
  {
    if b == [] {
      assert a + b == a;
    } else {
      assert (a + b)[..|a + b| - 1] == a + b[..|b| - 1];
      AfterConcat(s, a, b[..|b| - 1]);
    }
  }

  /** So the events do reach the store: after any run, a flush and as many commits as there are transactions
      leave the store itself with all events applied one by one, and nothing pending or under way. */
  lemma FlushedRunIsStored(store: Store, steps: seq<Step>)
    requires NeverDrops(State(NOTHING, false, [], store), steps)
    ensures var start := State(NOTHING, false, [], store);
      var flushed := After(start, steps + [FlushNow]);
      After(start, steps + [FlushNow] + Commits(|flushed.transactions|)) ==
      State(NOTHING, false, [], DirectAfter(store, steps))
  {
    var start := State(NOTHING, false, [], store);
    var flushed := After(start, steps + [FlushNow]);
    RunIsDirect(store, steps);
    assert (steps + [FlushNow])[..|steps|] == steps;
    FlushOpens(After(start, steps));
    CommitsWriteAll(flushed, |flushed.transactions|);
    AfterConcat(start, steps + [FlushNow], Commits(|flushed.transactions|));
  }
}
