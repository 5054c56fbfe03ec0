/**
 * The durable allocation record store of the process provisioner: one record per
 * allocation, fenced by generation, written ahead of every acknowledgement.
 */
module AllocationStore {
  import opened Options
  import opened AllocationRecord

  type Row = Record<string>

  // The records `Map`, in insertion order; setting a present key keeps its position.
  function Lookup(rows: seq<Row>, id: string): (r: Option<Row>)
    ensures r.Some? ==> r.value in rows && r.value.allocationId == id
    ensures r.None? ==> forall row | row in rows :: row.allocationId != id
  {
    if rows == [] then None
    else if rows[0].allocationId == id then Some(rows[0])
    else Lookup(rows[1..], id)
  }

  function Put(rows: seq<Row>, row: Row): seq<Row> {
    if rows == [] then [row]
    else if rows[0].allocationId == row.allocationId then [row] + rows[1..]
    else [rows[0]] + Put(rows[1..], row)
  }

  lemma {:induction false} LookupPut(rows: seq<Row>, row: Row, id: string)
    ensures Lookup(Put(rows, row), id) == if id == row.allocationId then Some(row) else Lookup(rows, id)
  {
    if rows != [] && rows[0].allocationId != row.allocationId {
      LookupPut(rows[1..], row, id);
      assert Put(rows, row)[1..] == Put(rows[1..], row);
    }
  }

  // What the state file holds: nothing yet, text that does not parse, or rows.
  datatype StateFile = Missing | Malformed | Rows(rows: seq<Row>)

  // How the environment treats one operation: whether the file can be read, and how far a write gets.
  // A write that fails after the rename has already replaced the file.
  datatype WriteOutcome = Committed | FailedBeforeRename | FailedAfterRename
  datatype Io = Io(readable: bool, write: WriteOutcome)

  datatype State = State(records: seq<Row>, initialized: bool, disk: StateFile)

  datatype Request =
    | ObserveEnsure(id: string, sidecar: string, generation: nat)
    | ObserveDestroy(id: string, sidecar: string, generation: nat)
    | RecordUnit(id: string, generation: nat, ref: string)

  // `Failed` is an exception: the caller learns nothing.
  datatype Reply = Observed(record: Row) | Rejected(code: Code) | Recorded(done: bool) | Failed

  // Rows enter the map one by one; a repeated id stops the load where it is.
  function Load(records: seq<Row>, rows: seq<Row>): (seq<Row>, bool)
    decreases |rows|
  {
    if rows == [] then (records, true)
    else if Lookup(records, rows[0].allocationId).Some? then (records, false)
    else Load(Put(records, rows[0]), rows[1..])
  }

  function Initialize(s: State, readable: bool): State {
    if s.initialized || !readable then s
    else match s.disk
      case Missing => s.(initialized := true)
      case Malformed => s
      case Rows(rows) =>
        var (loaded, ok) := Load(s.records, rows);
        s.(records := loaded, initialized := ok)
  }

  function AnswerOf(decision: Decision<string>): (Option<Row>, Reply) {
    match decision
    case Keep(record) => (None, Observed(record))
    case Write(record) => (Some(record), Observed(record))
    case Refuse(code) => (None, Rejected(code))
  }

  function DecideRow(records: seq<Row>, req: Request): (Option<Row>, Reply) {
    var existing := Lookup(records, req.id);
    match req
    case RecordUnit(_, generation, ref) =>
      var updated := DecideRecord(existing, generation, ref);
      (updated, Recorded(updated.Some?))
    case ObserveEnsure(id, sidecar, generation) => AnswerOf(DecideEnsure(existing, id, sidecar, generation))
    case ObserveDestroy(id, sidecar, generation) => AnswerOf(DecideDestroy(existing, id, sidecar, generation))
  }

  // Decide, persist, and only then remember and answer.
  function Perform(s: State, req: Request, write: WriteOutcome): (State, Reply) {
    var (row, reply) := DecideRow(s.records, req);
    if row.None? then (s, reply)
    else
      var next := Put(s.records, row.value);
      match write
      case Committed => (State(next, true, Rows(next)), reply)
      case FailedBeforeRename => (s, Failed)
      case FailedAfterRename => (s.(disk := Rows(next)), Failed)
  }

  /** One exclusive operation: load if needed, then perform. */
  function Execute(s: State, req: Request, io: Io): (State, Reply) {
    var s1 := Initialize(s, io.readable);
    if s1.initialized then Perform(s1, req, io.write) else (s1, Failed)
  }

  class AllocationStateStore {
    var records: seq<Row>
    var initialized: bool
    var disk: StateFile

    ghost function Abstract(): State
      reads this
    {
      State(records, initialized, disk)
    }

    constructor (disk: StateFile)
      ensures Abstract() == State([], false, disk)
    {
      records, initialized, this.disk := [], false, disk;
    }

    method EnsureLoaded(readable: bool)
      modifies this
      ensures Abstract() == Initialize(old(Abstract()), readable)
    {
      if initialized || !readable {
        return;
      }
      match disk
      case Missing => initialized := true;
      case Malformed =>
      case Rows(rows) =>
        var i := 0;
        while i < |rows|
          invariant 0 <= i <= |rows| && !initialized && disk == old(disk)
          invariant Load(records, rows[i..]) == Load(old(records), rows)
        {
          if Lookup(records, rows[i].allocationId).Some? {
            return;
          }
          records := Put(records, rows[i]);
          i := i + 1;
        }
        initialized := true;
    }

    method Persist(next: seq<Row>, write: WriteOutcome) returns (ok: bool)
      modifies this`disk
      ensures ok == (write == Committed)
      ensures disk == if write == FailedBeforeRename then old(disk) else Rows(next)
    {
      if write == FailedBeforeRename {
        return false;
      }
      disk := Rows(next);
      ok := write == Committed;
    }

    method Serve(req: Request, io: Io) returns (reply: Reply)
      modifies this
      ensures (Abstract(), reply) == Execute(old(Abstract()), req, io)
    {
      EnsureLoaded(io.readable);
      if !initialized {
        return Failed;
      }
      var row;
      row, reply := DecideRow(records, req).0, DecideRow(records, req).1;
      if row.Some? {
        var next := Put(records, row.value);
        var ok := Persist(next, io.write);
        if !ok {
          return Failed;
        }
        records := next;
      }
    }
  }

  // A run interleaves operations with crashes; a crash in the middle of an operation is a failed
  // operation followed by a crash. Only the file survives one.
  datatype Event = Call(req: Request, io: Io) | Crash

  function Step(s: State, e: Event): (State, Reply) {
    match e
    case Call(req, io) => Execute(s, req, io)
    case Crash => (State([], false, s.disk), Failed)
  }

  function After(s: State, events: seq<Event>): State {
    if events == [] then s
    else Step(After(s, events[..|events| - 1]), events[|events| - 1]).0
  }

  function ReplyAt(s: State, events: seq<Event>, i: nat): Reply
    requires i < |events|
  {
    Step(After(s, events[..i]), events[i]).1
  }

  // The records a caller can rely on: memory once it is loaded, the file until then.
  function View(s: State): seq<Row> {
    if s.initialized then s.records else if s.disk.Rows? then s.disk.rows else []
  }

  /** The file is memory, or memory plus one update nobody was told about. */
  ghost predicate Durable(s: State) {
    if s.initialized then
      match s.disk
      case Missing => s.records == []
      case Malformed => false
      case Rows(rows) => rows == s.records || exists row :: OneAhead(s.records, row, rows)
    else
      s.records == [] || (s.disk.Rows? && Repeats(s.disk.rows))
  }

  ghost predicate OneAhead(records: seq<Row>, row: Row, rows: seq<Row>) {
    rows == Put(records, row) && Below(Lookup(records, row.allocationId), Some(row))
  }

  ghost predicate Repeats(rows: seq<Row>) {
    exists i, j :: 0 <= i < j < |rows| && rows[i].allocationId == rows[j].allocationId
  }

  ghost predicate Fenced(a: seq<Row>, b: seq<Row>) {
    forall id :: Below(Lookup(a, id), Lookup(b, id))
  }

  // A load that starts empty succeeds exactly on rows without a repeated id, and yields them.
  lemma {:induction false} LoadAppends(records: seq<Row>, rows: seq<Row>)
    requires !Repeats(records)
    ensures Load(records, rows).1 <==> !Repeats(records + rows)
    ensures Load(records, rows).1 ==> Load(records, rows).0 == records + rows
    decreases |rows|
  {
    if rows == [] {
      assert records + rows == records;
    } else {
      var row := rows[0];
      if Lookup(records, row.allocationId).Some? {
        var k :| 0 <= k < |records| && records[k].allocationId == row.allocationId;
        assert (records + rows)[k] == records[k] && (records + rows)[|records|] == row;
      } else {
        PutFresh(records, row);
        assert records + rows == (records + [row]) + rows[1..];
        LoadAppends(records + [row], rows[1..]);
      }
    }
  }

  lemma {:induction false} PutFresh(records: seq<Row>, row: Row)
    requires Lookup(records, row.allocationId).None?
    requires !Repeats(records)
    ensures Put(records, row) == records + [row] && !Repeats(records + [row])
  {
    PutAppends(records, row);
    var all := records + [row];
    forall i, j | 0 <= i < j < |all| ensures all[i].allocationId != all[j].allocationId {
      assert all[i] == records[i] && all[i] in records;
      if j < |records| {
        assert records[i].allocationId != records[j].allocationId;
      }
    }
  }

  lemma {:induction false} PutAppends(records: seq<Row>, row: Row)
    requires Lookup(records, row.allocationId).None?
    ensures Put(records, row) == records + [row]
  {
    if records != [] {
      PutAppends(records[1..], row);
    }
  }

  lemma DecideIsFenced(records: seq<Row>, req: Request)
    ensures var (row, reply) := DecideRow(records, req);
      && (row.Some? ==> row.value.allocationId == req.id && Below(Lookup(records, req.id), row))
      && (reply.Observed? ==> row == Some(reply.record) || (row.None? && Lookup(records, req.id) == Some(reply.record)))
      && (reply == Recorded(true) ==> row.Some?)
  {
  }

  lemma PutIsFenced(records: seq<Row>, row: Row)
    requires Below(Lookup(records, row.allocationId), Some(row))
    ensures Fenced(records, Put(records, row))
  {
    forall id ensures Below(Lookup(records, id), Lookup(Put(records, row), id)) {
      LookupPut(records, row, id);
    }
  }

  lemma LoadKeepsDurable(s: State, readable: bool)
    requires Durable(s)
    ensures Durable(Initialize(s, readable)) && View(Initialize(s, readable)) == View(s)
    ensures Initialize(s, readable).disk == s.disk
  {
    if !s.initialized && readable && s.disk.Rows? {
      var rows := s.disk.rows;
      if s.records == [] {
        LoadAppends([], rows);
        assert [] + rows == rows;
      } else {
        var i, j :| 0 <= i < j < |rows| && rows[i].allocationId == rows[j].allocationId;
        LoadStaysBroken(s.records, rows, i, j);
      }
    }
  }

  lemma {:induction false} LoadStaysBroken(records: seq<Row>, rows: seq<Row>, i: nat, j: nat)
    requires i < j < |rows| && rows[i].allocationId == rows[j].allocationId
    ensures !Load(records, rows).1
    decreases |rows|
  {
    if Lookup(records, rows[0].allocationId).None? {
      LookupPut(records, rows[0], rows[0].allocationId);
      if i == 0 {
        LoadStopsAt(Put(records, rows[0]), rows[1..], j - 1);
      } else {
        LoadStaysBroken(Put(records, rows[0]), rows[1..], i - 1, j - 1);
      }
    }
  }

  lemma {:induction false} LoadStopsAt(records: seq<Row>, rows: seq<Row>, j: nat)
    requires j < |rows| && Lookup(records, rows[j].allocationId).Some?
    ensures !Load(records, rows).1
    decreases |rows|
  {
    if j > 0 && Lookup(records, rows[0].allocationId).None? {
      LookupPut(records, rows[0], rows[j].allocationId);
      LoadStopsAt(Put(records, rows[0]), rows[1..], j - 1);
    }
  }

  lemma PerformIsDurable(s: State, req: Request, write: WriteOutcome)
    requires s.initialized && Durable(s)
    ensures Durable(Perform(s, req, write).0) && Fenced(View(s), View(Perform(s, req, write).0))
  {
    DecideIsFenced(s.records, req);
    var row := DecideRow(s.records, req).0;
    if row.Some? {
      PutIsFenced(s.records, row.value);
      assert OneAhead(s.records, row.value, Put(s.records, row.value));
    }
  }

  lemma CrashIsDurable(s: State)
    requires Durable(s)
    ensures Durable(State([], false, s.disk)) && Fenced(View(s), View(State([], false, s.disk)))
  {
    if s.initialized && s.disk.Rows? && s.disk.rows != s.records {
      var row :| OneAhead(s.records, row, s.disk.rows);
      PutIsFenced(s.records, row);
    }
  }

  /** Every step keeps the file within one unacknowledged update of memory, and never moves a
      record down the fencing order. */
  lemma StepIsDurable(s: State, e: Event)
    requires Durable(s)
    ensures Durable(Step(s, e).0) && Fenced(View(s), View(Step(s, e).0))
  {
    match e
    case Crash => CrashIsDurable(s);
    case Call(req, io) =>
      LoadKeepsDurable(s, io.readable);
      var s1 := Initialize(s, io.readable);
      if s1.initialized {
        PerformIsDurable(s1, req, io.write);
      }
  }

  lemma {:induction false} RunIsDurable(s: State, events: seq<Event>)
    requires Durable(s)
    ensures Durable(After(s, events))
  {
    if events != [] {
      RunIsDurable(s, events[..|events| - 1]);
      StepIsDurable(After(s, events[..|events| - 1]), events[|events| - 1]);
    }
  }

  lemma FencedTransitive(a: seq<Row>, b: seq<Row>, c: seq<Row>)
    requires Fenced(a, b) && Fenced(b, c)
    ensures Fenced(a, c)
  {
  }

  /** Over any run with crashes and failed writes, each allocation's sidecar never changes and its
      (generation, desired) pair never decreases. */
  lemma {:induction false} RunIsFenced(s: State, events: seq<Event>, i: nat, j: nat)
    requires Durable(s) && i <= j <= |events|
    ensures Fenced(View(After(s, events[..i])), View(After(s, events[..j])))
    decreases j - i
  {
    if i < j {
      RunIsFenced(s, events, i, j - 1);
      assert events[..j][..j - 1] == events[..j - 1];
      var before := After(s, events[..j - 1]);
      RunIsDurable(s, events[..j - 1]);
      StepIsDurable(before, events[j - 1]);
      FencedTransitive(View(After(s, events[..i])), View(before), View(After(s, events[..j])));
    }
  }

  lemma PerformedIsStored(s: State, req: Request, write: WriteOutcome)
    requires s.initialized
    ensures var (s', reply) := Perform(s, req, write);
      && (reply.Observed? ==> Lookup(View(s'), req.id) == Some(reply.record))
      && (reply == Recorded(true) ==>
            var found := Lookup(View(s'), req.id);
            found.Some? && found.value.generation == req.generation && found.value.desired == Ensured &&
            found.value.externalRef == Some(req.ref))
  {
    DecideIsFenced(s.records, req);
    var (row, reply) := DecideRow(s.records, req);
    assert reply == Recorded(true) ==>
      row.value.generation == req.generation && row.value.desired == Ensured && row.value.externalRef == Some(req.ref);
    hide DecideRow;
    if row.Some? {
      LookupPut(s.records, row.value, req.id);
    }
  }

  // What an acknowledgement promises is in the view when it is given.
  lemma AcknowledgedIsStored(s: State, req: Request, io: Io)
    requires Durable(s)
    ensures var (s', reply) := Execute(s, req, io);
      && (reply.Observed? ==> Lookup(View(s'), req.id) == Some(reply.record))
      && (reply == Recorded(true) ==>
            var found := Lookup(View(s'), req.id);
            found.Some? && found.value.generation == req.generation && found.value.desired == Ensured &&
            found.value.externalRef == Some(req.ref))
  {
    hide Initialize, Perform, DecideRow;
    var s1 := Initialize(s, io.readable);
    if s1.initialized {
      PerformedIsStored(s1, req, io.write);
    }
  }

  lemma AcknowledgedAt(s: State, events: seq<Event>, i: nat)
    requires Durable(s) && i < |events| && events[i].Call?
    ensures var req, reply := events[i].req, ReplyAt(s, events, i);
      var found := Lookup(View(After(s, events[..i + 1])), req.id);
      && (reply.Observed? ==> found == Some(reply.record))
      && (reply == Recorded(true) ==>
            found.Some? && found.value.generation == req.generation && found.value.desired == Ensured &&
            found.value.externalRef == Some(req.ref))
  {
    hide Execute, View, Durable;
    RunIsDurable(s, events[..i]);
    AcknowledgedIsStored(After(s, events[..i]), events[i].req, events[i].io);
    assert events[..i + 1][..i] == events[..i];
  }

  /** Crash safety: a record returned to a caller is never lost, whatever fails or crashes later. */
  lemma AcknowledgedIsNeverLost(s: State, events: seq<Event>, i: nat, j: nat)
    requires Durable(s) && i < j <= |events|
    requires events[i].Call? && ReplyAt(s, events, i).Observed?
    ensures Below(Some(ReplyAt(s, events, i).record), Lookup(View(After(s, events[..j])), events[i].req.id))
  {
    hide After, View, Execute, ReplyAt, Durable;
    AcknowledgedAt(s, events, i);
    RunIsFenced(s, events, i + 1, j);
  }

  /** The same for a recorded unit: its generation keeps some reference until a newer generation. */
  lemma RecordedIsNeverLost(s: State, events: seq<Event>, i: nat, j: nat)
    requires Durable(s) && i < j <= |events|
    requires events[i].Call? && events[i].req.RecordUnit? && ReplyAt(s, events, i) == Recorded(true)
    ensures var found := Lookup(View(After(s, events[..j])), events[i].req.id);
      found.Some? && found.value.generation >= events[i].req.generation &&
      (found.value.generation == events[i].req.generation ==> found.value.externalRef.Some?)
  {
    hide After, View, Execute, ReplyAt, Durable;
    AcknowledgedAt(s, events, i);
    RunIsFenced(s, events, i + 1, j);
  }

  /** Generation fencing: once destroying generation g was acknowledged, no later request ensures or
      records a generation up to g, even across crashes. */
  lemma DestroyedStaysDestroyed(s: State, events: seq<Event>, i: nat, j: nat)
    requires Durable(s) && i < j < |events|
    requires events[i].Call? && events[i].req.ObserveDestroy? && ReplyAt(s, events, i).Observed?
    requires events[j].Call? && !events[j].req.ObserveDestroy?
    requires events[j].req.id == events[i].req.id && events[j].req.generation <= events[i].req.generation
    ensures var reply := ReplyAt(s, events, j);
      reply.Rejected? || reply == Recorded(false) || reply == Failed
  {
    AcknowledgedIsNeverLost(s, events, i, j);
    AcknowledgedWasDestroyed(After(s, events[..i]), events[i].req, events[i].io);
    var sj := After(s, events[..j]);
    RunIsDurable(s, events[..j]);
    LoadKeepsDurable(sj, events[j].io.readable);
  }

  lemma AcknowledgedWasDestroyed(s: State, req: Request, io: Io)
    requires req.ObserveDestroy? && Execute(s, req, io).1.Observed?
    ensures var record := Execute(s, req, io).1.record;
      record.generation == req.generation && record.desired == Destroyed && record.sidecarId == req.sidecar
  {
  }
}
