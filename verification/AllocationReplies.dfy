/** What the store answers, exactly: when it fails, when it grants a request, and what else it touches. */
module AllocationReplies {
  import opened Options
  import opened AllocationRecord
  import opened AllocationStore

  // The records can be used: they are loaded, or the file can be read and has no repeated id.
  ghost predicate Loads(s: State, io: Io) {
    s.initialized || (io.readable && (s.disk.Missing? || (s.disk.Rows? && !Repeats(s.disk.rows))))
  }

  // The request may be granted, given the records a caller can rely on.
  ghost predicate Grants(view: seq<Row>, req: Request) {
    var found := Lookup(view, req.id);
    match req
    case ObserveEnsure(_, sidecar, generation) => !Fences(found, sidecar, generation, Ensured)
    case ObserveDestroy(_, sidecar, generation) => !Fences(found, sidecar, generation, Destroyed)
    case RecordUnit(_, generation, _) =>
      found.Some? && found.value.generation == generation && found.value.desired == Ensured
  }

  // And the records grant it already, so that nothing is written.
  ghost predicate Granted(view: seq<Row>, req: Request) {
    var found := Lookup(view, req.id);
    match req
    case ObserveEnsure(_, sidecar, generation) => found.Some? && Answers(found.value, sidecar, generation, Ensured)
    case ObserveDestroy(_, sidecar, generation) => found.Some? && Answers(found.value, sidecar, generation, Destroyed)
    case RecordUnit(_, _, _) => false
  }

  // The answer to a request that is served.
  ghost predicate AnswersFor(view: seq<Row>, req: Request, reply: Reply) {
    match req
    case RecordUnit(_, _, _) => reply == Recorded(Grants(view, req))
    case _ =>
      var found := Lookup(view, req.id);
      && (reply.Observed? || reply.Rejected?) && (reply.Observed? <==> Grants(view, req))
      && (reply == Rejected(RequestConflict) <==> found.Some? && found.value.sidecarId != req.sidecar)
      && (reply == Rejected(StaleGeneration) <==>
            found.Some? && found.value.sidecarId == req.sidecar && found.value.generation > req.generation)
  }

  // The record that a granted request leaves.
  ghost predicate LeavesRecord(before: Option<Row>, req: Request, reply: Reply, after: Option<Row>) {
    match req
    case RecordUnit(_, _, ref) => before.Some? && after == Some(before.value.(externalRef := Some(ref)))
    case ObserveEnsure(_, sidecar, generation) =>
      reply.Observed? && after == Some(reply.record) && Answers(reply.record, sidecar, generation, Ensured)
    case ObserveDestroy(_, sidecar, generation) =>
      reply.Observed? && after == Some(reply.record) && Answers(reply.record, sidecar, generation, Destroyed)
  }

  // The decision answers as the fence says, and writes exactly what is granted and not there yet.
  lemma DecidesExactly(records: seq<Row>, req: Request)
    ensures var (row, reply) := DecideRow(records, req);
      && AnswersFor(records, req, reply) && !reply.Failed?
      && (row.Some? <==> Grants(records, req) && !Granted(records, req))
      && (row.Some? ==> row.value.allocationId == req.id && LeavesRecord(Lookup(records, req.id), req, reply, row))
      && (Granted(records, req) ==> LeavesRecord(Lookup(records, req.id), req, reply, Lookup(records, req.id)))
      && (Granted(records, req) ==> Grants(records, req))
  {
    var found := Lookup(records, req.id);
    match req
    case ObserveEnsure(id, sidecar, generation) => EnsureDecidesByFence(found, id, sidecar, generation);
    case ObserveDestroy(id, sidecar, generation) => DestroyDecidesByFence(found, id, sidecar, generation);
    case RecordUnit(_, generation, ref) => RecordsWhileEnsured(found, generation, ref);
  }

  lemma LoadsFromFile(s: State, io: Io)
    requires Durable(s)
    ensures Initialize(s, io.readable).initialized <==> Loads(s, io)
    ensures View(Initialize(s, io.readable)) == View(s)
  {
    LoadKeepsDurable(s, io.readable);
    if !s.initialized && io.readable && s.disk.Rows? {
      if s.records == [] {
        LoadAppends([], s.disk.rows);
        assert [] + s.disk.rows == s.disk.rows;
      } else {
        var rows := s.disk.rows;
        var i, j :| 0 <= i < j < |rows| && rows[i].allocationId == rows[j].allocationId;
        LoadStaysBroken(s.records, rows, i, j);
      }
    }
  }

  lemma PerformsExactly(s: State, req: Request, write: WriteOutcome)
    requires s.initialized
    ensures var (t, reply) := Perform(s, req, write);
      var written := Grants(s.records, req) && !Granted(s.records, req);
      && (reply.Failed? <==> written && write != Committed)
      && (!reply.Failed? ==> AnswersFor(s.records, req, reply))
      && (!reply.Failed? && Grants(s.records, req) ==>
            LeavesRecord(Lookup(s.records, req.id), req, reply, Lookup(View(t), req.id)))
      && (reply.Failed? || !written ==> View(t) == View(s))
      && (forall id | id != req.id :: Lookup(View(t), id) == Lookup(View(s), id))
  {
    DecidesExactly(s.records, req);
    var (row, reply) := DecideRow(s.records, req);
    hide DecideRow, AnswersFor, Grants, Granted, LeavesRecord;
    if row.Some? {
      forall id ensures Lookup(Put(s.records, row.value), id) == if id == req.id then row else Lookup(s.records, id) {
        LookupPut(s.records, row.value, id);
      }
    }
  }

  /** The store's answer is exact. It fails only where the records cannot be loaded, or a write that is called
      for does not commit, and then the records stay. Otherwise an ensure or a destroy is granted exactly where
      the fence admits it, with the right code, and a unit is recorded exactly where its generation is the
      ensured one; the record is then the granted one, and no other allocation's record changes. */
  lemma ServesExactly(s: State, req: Request, io: Io)
    requires Durable(s)
    ensures var (t, reply) := Execute(s, req, io);
      var view, written := View(s), Grants(View(s), req) && !Granted(View(s), req);
      && (reply.Failed? <==> !Loads(s, io) || (written && io.write != Committed))
      && (!reply.Failed? ==> AnswersFor(view, req, reply))
      && (!reply.Failed? && Grants(view, req) ==>
            LeavesRecord(Lookup(view, req.id), req, reply, Lookup(View(t), req.id)))
      && (reply.Failed? || !written ==> View(t) == view)
      && (forall id | id != req.id :: Lookup(View(t), id) == Lookup(view, id))
  {
    hide Perform, Initialize, AnswersFor, Grants, Granted, LeavesRecord, Loads;
    LoadsFromFile(s, io);
    var s1 := Initialize(s, io.readable);
    if s1.initialized {
      PerformsExactly(s1, req, io.write);
    }
  }
}
