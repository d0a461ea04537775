/** The store of one run record: atomic updates behind the cleanup fence, compare-and-delete, and the cleanup audit. The
    record is one that is stored under its own name; RunDirectory says when that is so, and what happens otherwise. */
module RunStore {
  import opened Common
  import Json

  datatype AuditStatus = InProgress | FinishedStatus | PartialStatus | FailedStatus | OtherStatus(name: string)

  datatype AuditRecord = AuditRecord(status: AuditStatus, completed: bool, errors: seq<string>, storeDeleted: bool)

  /** A normalized run record; everything but the cleanup audit is one opaque value. */
  datatype Content = Content(cleanup: Option<AuditRecord>, rest: Json.Value)

  datatype ErrorKind = MissingRun | Conflict | MutatorError(message: string)

  datatype Mutation = Mutated(run: Content) | Raises(kind: ErrorKind)

  datatype StoreResult = Committed(run: Content) | Rejected(kind: ErrorKind)

  predicate Fenced(c: Content) {
    c.cleanup.Some? && c.cleanup.value.status == InProgress
  }

  datatype Update = Update(stored: Option<Content>, result: StoreResult)

  function Updated(stored: Option<Content>, mutate: Content -> Mutation, allowCleanup: bool): Update {
    match stored
    case None => Update(stored, Rejected(MissingRun))
    case Some(run) =>
      if !allowCleanup && Fenced(run) then Update(stored, Rejected(Conflict))
      else
        match mutate(run)
        case Raises(kind) => Update(stored, Rejected(kind))
        case Mutated(next) => Update(Some(next), Committed(next))
  }

  function SetCleanup(record: AuditRecord): Content -> Mutation {
    (c: Content) => Mutated(c.(cleanup := Some(record)))
  }

  function IfUnchanged(expected: Content, record: AuditRecord): Content -> Mutation {
    (c: Content) => if c != expected then Raises(Conflict) else Mutated(c.(cleanup := Some(record)))
  }

  function WithStoreError(record: AuditRecord, message: string): AuditRecord {
    record.(errors := record.errors + [message], status := if record.completed then PartialStatus else FailedStatus)
  }

  const CHANGED := "run record changed during cleanup; refusing to use the stale cleanup plan"
  const CHANGED_BEFORE_DELETION := "run record changed before deletion; refusing to delete the updated record"
  const NOT_FOUND := "run not found"

  function Begun(stored: Option<Content>, expected: Content, record: AuditRecord): Update {
    Updated(stored, IfUnchanged(expected, record.(status := InProgress)), true)
  }

  datatype Audited = Audited(stored: Option<Content>, result: StoreResult, record: AuditRecord)

  function AuditFinished(stored: Option<Content>, expected: Content, record: AuditRecord): Audited {
    var first := Updated(stored, IfUnchanged(expected, record), true);
    if first.result != Rejected(Conflict) then Audited(first.stored, first.result, record)
    else
      var failed := WithStoreError(record, CHANGED);
      var second := Updated(stored, SetCleanup(failed), true);
      Audited(second.stored, second.result, failed)
  }

  datatype Deletion = Deletion(stored: Option<Content>, deleted: bool, record: AuditRecord)

  function AuditDeleted(stored: Option<Content>, expected: Content, record: AuditRecord): Deletion {
    match stored
    case None => Deletion(stored, false, WithStoreError(record, NOT_FOUND))
    case Some(run) =>
      if run == expected then Deletion(None, true, record.(storeDeleted := true))
      else
        var failed := WithStoreError(record, CHANGED_BEFORE_DELETION);
        Deletion(Updated(stored, SetCleanup(failed), true).stored, false, failed)
  }

  class Store {
    var stored: Option<Content>

    constructor (content: Option<Content>)
      ensures stored == content
    {
      stored := content;
    }

    /** Reads, checks the fence, mutates and replaces the record, all under the run's lock. A missing run, a fenced one
        for anybody but the cleanup, and a mutator that raises leave it as it was; else it is what the mutator made. */
    method UpdateRun(mutate: Content -> Mutation, allowCleanup: bool) returns (result: StoreResult)
      modifies this
      ensures Update(stored, result) == Updated(old(stored), mutate, allowCleanup)
      ensures result.Rejected? ==> stored == old(stored)
      ensures old(stored).None? ==> result == Rejected(MissingRun)
      ensures old(stored).Some? && Fenced(old(stored).value) && !allowCleanup ==> result == Rejected(Conflict)
      ensures old(stored).Some? && (!Fenced(old(stored).value) || allowCleanup) ==>
                (result.Committed? <==> mutate(old(stored).value).Mutated?)
      ensures result.Committed? ==> stored == Some(result.run) && mutate(old(stored).value) == Mutated(result.run)
    {
      if stored.None? { return Rejected(MissingRun); }
      var run := stored.value;
      if !allowCleanup && Fenced(run) { return Rejected(Conflict); }
      var replacement := mutate(run);
      match replacement {
        case Raises(kind) => return Rejected(kind);
        case Mutated(next) =>
          stored := Some(next);
          return Committed(next);
      }
    }

    method DeleteRun(expected: Option<Content>) returns (error: Option<ErrorKind>)
      modifies this
      ensures error == if old(stored).None? then Some(MissingRun)
                       else if expected.Some? && old(stored) != expected then Some(Conflict) else None
      ensures stored == if error.None? then None else old(stored)
    {
      if stored.None? { return Some(MissingRun); }
      if expected.Some? && stored.value != expected.value { return Some(Conflict); }
      stored := None;
      return None;
    }

    /** Begins exactly on the expected record, which is fenced from then on and otherwise unchanged. */
    method BeginCleanupAudit(expected: Content, record: AuditRecord) returns (result: StoreResult)
      modifies this
      ensures Update(stored, result) == Begun(old(stored), expected, record)
      ensures result.Committed? <==> old(stored) == Some(expected)
      ensures result.Committed? ==> stored == Some(result.run) && Fenced(result.run) && result.run.rest == expected.rest
      ensures result.Rejected? ==>
                stored == old(stored) && result.kind == (if stored.None? then MissingRun else Conflict)
    {
      var inProgress := record.(status := InProgress);
      result := UpdateRun(IfUnchanged(expected, inProgress), true);
    }

    /** Attaches the record on the expected baseline; on any other record it attaches one that shows the conflict, and
        never touches what others wrote there. */
    method FinishCleanupAudit(expected: Content, record: AuditRecord) returns (result: StoreResult, final: AuditRecord)
      modifies this
      ensures Audited(stored, result, final) == AuditFinished(old(stored), expected, record)
      ensures result.Committed? <==> old(stored).Some?
      ensures stored.Some? <==> old(stored).Some?
      ensures stored.Some? ==> stored.value.rest == old(stored).value.rest && stored.value.cleanup == Some(final)
      ensures final == record <==> old(stored).None? || old(stored) == Some(expected)
      ensures final != record ==>
                && final.errors == record.errors + [CHANGED]
                && final.status == (if record.completed then PartialStatus else FailedStatus)
                && final.completed == record.completed && final.storeDeleted == record.storeDeleted
    {
      final := record;
      result := UpdateRun(IfUnchanged(expected, record), true);
      if result == Rejected(Conflict) {
        final := WithStoreError(final, CHANGED);
        result := UpdateRun(SetCleanup(final), true);
      }
    }

    /** Deletes exactly the audited record; any other one stays, with an audit that shows the error. */
    method DeleteAuditedRun(expected: Content, record: AuditRecord) returns (deleted: bool, final: AuditRecord)
      modifies this
      ensures Deletion(stored, deleted, final) == AuditDeleted(old(stored), expected, record)
      ensures deleted <==> old(stored) == Some(expected)
      ensures stored.None? <==> deleted || old(stored).None?
      ensures stored.Some? ==> stored.value.rest == old(stored).value.rest && stored.value.cleanup == Some(final)
      ensures if deleted then final == record.(storeDeleted := true)
              else
                && final.errors == record.errors + [if old(stored).None? then NOT_FOUND else CHANGED_BEFORE_DELETION]
                && final.status == (if record.completed then PartialStatus else FailedStatus)
                && final.completed == record.completed && final.storeDeleted == record.storeDeleted
    {
      final := record;
      var error := DeleteRun(Some(expected));
      if error.Some? {
        final := WithStoreError(final, if error.value == MissingRun then NOT_FOUND else CHANGED_BEFORE_DELETION);
        if error.value != MissingRun { var _ := UpdateRun(SetCleanup(final), true); }
        return false, final;
      }
      final := final.(storeDeleted := true);
      return true, final;
    }

    /** A leased cleanup that nobody interferes with: refused on an interrupted cleanup unless forced; otherwise the
        record is deleted exactly when that was asked for and nothing failed, and else ends with the audit attached. */
    method Cleanup(force: bool, blocked: bool, deleteRecord: bool, removed: AuditRecord)
        returns (result: StoreResult, deleted: bool)
      requires removed.status != InProgress
      modifies this
      ensures old(stored).None? ==> result == Rejected(MissingRun) && stored == None
      ensures old(stored).Some? && Fenced(old(stored).value) && !force ==>
                result == Rejected(Conflict) && stored == old(stored)
      ensures old(stored).Some? && !(Fenced(old(stored).value) && !force) ==>
                if blocked then stored == old(stored) && !deleted
                else (deleted <==> deleteRecord && removed.errors == [])
                     && stored == if deleted then None else Some(old(stored).value.(cleanup := Some(removed)))
    {
      deleted := false;
      if stored.None? { return Rejected(MissingRun), false; }
      var run := stored.value;
      if Fenced(run) && !force { return Rejected(Conflict), false; }
      if blocked { return Committed(run), false; }
      result := BeginCleanupAudit(run, AuditRecord(FinishedStatus, false, [], false));
      var baseline := result.run;
      var final;
      result, final := FinishCleanupAudit(baseline, removed);
      if deleteRecord && final.errors == [] {
        deleted, final := DeleteAuditedRun(result.run, final);
      }
    }
  }
}
