/** One allocation's record and what each request does to it. */
module AllocationRecord {
  import opened Options

  // `Ensured` is below `Destroyed` within one generation.
  datatype Desired = Ensured | Destroyed

  // `R` is the external reference type: text in the store, a parsed unit in the provisioner.
  datatype Record<R> = Record(allocationId: string, sidecarId: string, generation: nat,
                              desired: Desired, externalRef: Option<R>)

  datatype Code = RequestConflict | StaleGeneration | GenerationDestroyed

  // What a request does to the record it finds: answer from it, write a new one first, or refuse.
  datatype Decision<R> = Keep(record: Record<R>) | Write(record: Record<R>) | Refuse(code: Code)

  function DecideEnsure<R>(existing: Option<Record<R>>, id: string, sidecar: string, generation: nat): Decision<R> {
    var created := Record(id, sidecar, generation, Ensured, None);
    match existing
    case None => Write(created)
    case Some(record) =>
      if record.sidecarId != sidecar then Refuse(RequestConflict)
      else if record.generation > generation then Refuse(StaleGeneration)
      else if record.generation == generation then
        if record.desired == Destroyed then Refuse(GenerationDestroyed) else Keep(record)
      else Write(created)
  }

  function DecideDestroy<R>(existing: Option<Record<R>>, id: string, sidecar: string, generation: nat): Decision<R> {
    match existing
    case None => Write(Record(id, sidecar, generation, Destroyed, None))
    case Some(record) =>
      if record.sidecarId != sidecar then Refuse(RequestConflict)
      else if record.generation > generation then Refuse(StaleGeneration)
      else if record.generation == generation && record.desired == Destroyed then Keep(record)
      else Write(Record(id, sidecar, generation, Destroyed, record.externalRef))
  }

  // None when the unit may not be recorded any more.
  function DecideRecord<R>(existing: Option<Record<R>>, generation: nat, ref: R): Option<Record<R>> {
    if existing.Some? && existing.value.generation == generation && existing.value.desired == Ensured
    then Some(existing.value.(externalRef := Some(ref)))
    else None
  }

  /** The fencing order: the sidecar is fixed, (generation, desired) never goes down, and a
      reference is never dropped within a generation. */
  ghost predicate Below<R>(a: Option<Record<R>>, b: Option<Record<R>>) {
    a.None? ||
    (b.Some? && a.value.sidecarId == b.value.sidecarId &&
     (a.value.generation < b.value.generation ||
      (a.value.generation == b.value.generation &&
       (a.value.desired == Destroyed ==> b.value.desired == Destroyed) &&
       (a.value.externalRef.Some? ==> b.value.externalRef.Some?))))
  }

  ghost predicate Answers<R>(record: Record<R>, sidecar: string, generation: nat, desired: Desired) {
    record.sidecarId == sidecar && record.generation == generation && record.desired == desired
  }

  // No record that grants the request would respect the fence.
  ghost predicate Fences<R(!new)>(existing: Option<Record<R>>, sidecar: string, generation: nat, desired: Desired) {
    forall r: Record<R> | Answers(r, sidecar, generation, desired) :: !Below(existing, Some(r))
  }

  // What both requests promise: refused exactly when the fence forbids every answer; otherwise answered by
  // the record that grants it, which is written unless it is there already.
  ghost predicate DecidesByFence<R(!new)>(decision: Decision<R>, existing: Option<Record<R>>,
                                    sidecar: string, generation: nat, desired: Desired) {
    && (decision.Refuse? <==> Fences(existing, sidecar, generation, desired))
    && (!decision.Refuse? ==> Answers(decision.record, sidecar, generation, desired))
    && (!decision.Refuse? ==> Below(existing, Some(decision.record)))
    && (decision.Keep? <==> existing.Some? && Answers(existing.value, sidecar, generation, desired))
    && (decision.Keep? ==> existing == Some(decision.record))
    && (decision == Refuse(RequestConflict) <==> existing.Some? && existing.value.sidecarId != sidecar)
    && (decision == Refuse(GenerationDestroyed) ==>
          existing.Some? && Answers(existing.value, sidecar, generation, Destroyed))
    && (decision == Refuse(StaleGeneration) ==> existing.Some? && existing.value.generation > generation)
  }

  /** An ensure is refused exactly when the fence forbids it; a new generation starts without a reference. */
  lemma EnsureDecidesByFence<R(!new)>(existing: Option<Record<R>>, id: string, sidecar: string, generation: nat)
    ensures var decision := DecideEnsure(existing, id, sidecar, generation);
      && DecidesByFence(decision, existing, sidecar, generation, Ensured)
      && (decision.Write? ==> decision.record.allocationId == id && decision.record.externalRef.None?)
  {
  }

  /** A destroy is refused exactly when the fence forbids it, so never for a generation already destroyed;
      what it writes carries the reference over, for the cleanup. */
  lemma DestroyDecidesByFence<R(!new)>(existing: Option<Record<R>>, id: string, sidecar: string, generation: nat)
    ensures var decision := DecideDestroy(existing, id, sidecar, generation);
      && DecidesByFence(decision, existing, sidecar, generation, Destroyed)
      && (decision.Write? ==> decision.record.allocationId == id)
      && (decision.Write? ==>
            decision.record.externalRef == if existing.Some? then existing.value.externalRef else None)
      && decision != Refuse(GenerationDestroyed)
  {
  }

  /** A unit is recorded exactly while its generation is the ensured one. */
  lemma RecordsWhileEnsured<R>(existing: Option<Record<R>>, generation: nat, ref: R)
    ensures var updated := DecideRecord(existing, generation, ref);
      && (updated.Some? <==> existing.Some? && Answers(existing.value, existing.value.sidecarId, generation, Ensured))
      && (updated.Some? ==> Below(existing, updated) && updated.value.externalRef == Some(ref))
      && (updated.Some? ==> Answers(updated.value, existing.value.sidecarId, generation, Ensured))
      && (updated.Some? ==> updated.value.allocationId == existing.value.allocationId)
  {
  }
}
