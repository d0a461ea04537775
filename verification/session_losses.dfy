/** Exactly when a session that has to be deleted stops being known before its deletion was verified. */
module SessionLosses {
  import opened Common
  import opened Workers
  import opened DependencyAnalysis
  import opened RemoteJournal
  import opened CleanupRecovery
  import opened SessionConservation
  import Json
  import Outbox

  /** The session's deletion was verified, or the persisted run still shows that it has to be deleted. */
  ghost predicate Kept(s: Store, w: WorkerId, session: SessionId) {
    session in s.verified || Recoverable(s.workers, ItemsIn(s), w, session)
  }

  /** The entry is a succeeded or applied creation for cleanup of this session for this worker. */
  predicate Names(e: Entry, w: WorkerId, session: SessionId) {
    Requested(e, Some(CREATE_KIND), RECOVERABLE_STATES) && Creates(e, w, session)
  }

  /** An entry of another id names the session. */
  ghost predicate HeldElsewhere(items: seq<Item>, id: EntryId, w: WorkerId, session: SessionId) {
    exists e :: Dict(e) in items && Lookup(e, IdKey) != Json.Text(id) && Names(e, w, session)
  }

  /** The write of a cleanup attempt replaces the record that wants the session, which the plan never saw, which was not
      verified, and which no journal entry names any more. */
  ghost predicate OverwritesLast(s: Store, step: Step, w: WorkerId, session: SessionId) {
    && step.Clean? && step.ok && step.worker == w && w in s.plan && w in s.workers
    && session in WantedOf(s.workers, w) && session !in s.plan[w] && session !in s.verified
    && !InJournal(ItemsIn(s), w, session)
  }

  /** Finalizing removes the last entry that names the session, which no record wants and which was not verified. */
  ghost predicate FinalizesLast(s: Store, step: Step, w: WorkerId, session: SessionId) {
    && step.Journal? && step.step.ok && step.step.action.FinalizeLater? && Possible(s, step.step)
    && Holds(EntriesOf(s.outbox.field, step.step.id), w, session)
    && session !in WantedOf(s.workers, w) && session !in s.verified
    && !HeldElsewhere(ItemsIn(s), step.step.id, w, session)
  }

  ghost predicate Loses(s: Store, step: Step, w: WorkerId, session: SessionId) {
    OverwritesLast(s, step, w, session) || FinalizesLast(s, step, w, session)
  }

  // ----- What the journal holds -----

  lemma {:induction false} CarryingIff(items: seq<Item>, i: Item)
    ensures i in Carrying(items, IdOf(i)) <==> i in items
  {
    if items != [] {
      var n := |items| - 1;
      CarryingIff(items[..n], i);
      assert items == items[..n] + [items[n]];
    }
  }

  /** An entry names the session iff one of the transaction does, or one of another id does. */
  lemma InJournalSplits(f: Field, id: EntryId, w: WorkerId, session: SessionId)
    requires |EntriesOf(f, id)| <= 1
    ensures InJournal(ItemsOf(f), w, session) <==>
            Holds(EntriesOf(f, id), w, session) || HeldElsewhere(ItemsOf(f), id, w, session)
  {
    hide Carrying, Requested, Creates;
    var items, entries := ItemsOf(f), EntriesOf(f, id);
    Outbox.CarryingMembers(items, Some(Json.Text(id)));
    if Holds(entries, w, session) {
      assert entries[0] in entries;
      assert Dict(entries[0].entry) in items;
    }
    if e :| Dict(e) in items && Requested(e, Some(CREATE_KIND), RECOVERABLE_STATES) && Creates(e, w, session) {
      CarryingIff(items, Dict(e));
      if Lookup(e, IdKey) == Json.Text(id) {
        assert Dict(e) in entries;
        assert entries[0] == Dict(e);
      } else {
        assert Names(e, w, session);
      }
    }
  }

  lemma ElsewhereStays(s: Store, step: Outbox.Step, w: WorkerId, session: SessionId)
    requires Outbox.OwnRecords(Outbox.TxOf(s.outbox, step.id), step.id)
    ensures HeldElsewhere(ItemsIn(s), step.id, w, session) <==>
            HeldElsewhere(ItemsOf(Outbox.Next(s.outbox, step).field), step.id, w, session)
  {
    hide Names, Carrying, Outbox.Next, Outbox.OwnRecords;
    var before, after := ItemsIn(s), ItemsOf(Outbox.Next(s.outbox, step).field);
    forall e | Lookup(e, IdKey) != Json.Text(step.id) ensures Dict(e) in before <==> Dict(e) in after {
      Outbox.StepElsewhere(s.outbox, step, step.id, IdOf(Dict(e)));
      CarryingIff(before, Dict(e));
      CarryingIff(after, Dict(e));
    }
  }

  // ----- Marked creations carry their record -----

  /** The entry of a marked transaction shows its record's fields; creations are never marked a second time. */
  ghost predicate Faithful(entries: seq<Item>, tx: Outbox.Tx) {
    && !(tx.kind == CREATE_KIND && tx.pc.Remarked?)
    && (tx.pc.Marked? ==>
          && entries != [] && entries[0].Dict?
          && forall name :: FieldKey(name) in tx.pc.record.fields ==>
               Lookup(entries[0].entry, FieldKey(name)) == tx.pc.record.fields[FieldKey(name)])
  }

  ghost predicate Sound(s: Store) {
    && Outbox.Consistent(s.outbox)
    && forall id :: Faithful(EntriesOf(s.outbox.field, id), Outbox.TxOf(s.outbox, id))
  }

  lemma MarkingIsFaithful(entries: seq<Item>, tx: Outbox.Tx, step: Outbox.Step)
    requires Outbox.TxOk(entries, tx, step.id) && Faithful(entries, tx)
    requires Outbox.Enabled(entries, tx, step.id, step.action)
    requires tx.kind == CREATE_KIND ==> CreationFlow(tx, step.action)
    ensures Faithful(if step.ok then Outbox.WrittenEntries(entries, tx, step.action) else entries,
                     Outbox.NextTx(tx, step.action, step.ok))
  {
    hide EntryState, UpdateOf, EntryOf, Records, Outbox.EntriesOk;
    if step.action.MarkSucceeded? && step.ok {
      Outbox.EntriesOkKeepsKind(entries, tx, tx, step.id);
      FirstIsEntry(entries, tx, step.id);
      UpdateCarriesFields(entries[0].entry, step.action.record, RemoteSucceeded);
    }
  }

  lemma FirstIsEntry(entries: seq<Item>, tx: Outbox.Tx, id: EntryId)
    requires Outbox.EntriesOk(entries, tx, id) && entries != []
    ensures entries[0].Dict? && Lookup(entries[0].entry, KindKey) == Json.Text(tx.kind)
  {
  }

  lemma SoundStep(s: Store, step: Step)
    requires Sound(s)
    ensures Sound(Next(s, step))
  {
    hide Outbox.TxOk, Faithful, Carrying, AfterClean, LeavesCleanup, CleanupPlan, Offer, Possible;
    if step.Journal? && Possible(s, step.step) {
      SoundJournal(s, step.step);
    } else {
      OnlyJournalsChangeOutbox(s, step);
    }
  }

  lemma OnlyJournalsChangeOutbox(s: Store, step: Step)
    requires !(step.Journal? && Possible(s, step.step))
    ensures Next(s, step).outbox == s.outbox
  {
    hide Possible, LeavesCleanup, Offer, CleanedUp, DisposalOf, CleanupPlan;
  }

  lemma SoundJournal(s: Store, step: Outbox.Step)
    requires Sound(s) && Possible(s, step)
    ensures Sound(AfterJournal(s, step))
  {
    hide Outbox.TxOk, Faithful, Carrying, Outbox.Enabled, CreationFlow, Outbox.Next, Outbox.WrittenEntries,
         Outbox.NextTx, Outbox.OwnRecords, Applies, MarksCreated, WorkersWith, WorkerIn, SessionIn;
    var tx, entries := Outbox.TxOf(s.outbox, step.id), EntriesOf(s.outbox.field, step.id);
    Outbox.StepKeepsConsistent(s.outbox, step);
    assert Outbox.TxOk(entries, tx, step.id);
    Outbox.TxOkOwns(entries, tx, step.id);
    OwnView(s.outbox, step);
    MarkingIsFaithful(entries, tx, step);
    var next := Outbox.Next(s.outbox, step);
    forall id ensures Faithful(EntriesOf(next.field, id), Outbox.TxOf(next, id)) {
      if id != step.id { Outbox.StepElsewhere(s.outbox, step, id, Some(Json.Text(id))); }
    }
  }

  // ----- One step -----

  lemma FieldsDecide(a: Entry, b: Entry, w: WorkerId, session: SessionId)
    requires Lookup(a, KindKey) == Lookup(b, KindKey)
    requires forall name :: Lookup(a, FieldKey(name)) == Lookup(b, FieldKey(name))
    requires EntryState(b).Some? && EntryState(b).value in RECOVERABLE_STATES
    ensures Names(a, w, session) ==> Names(b, w, session)
  {
    hide EntryState;
    assert Lookup(a, WORKER_KEY) == Lookup(b, WORKER_KEY) && Lookup(a, CLEANUP_KEY) == Lookup(b, CLEANUP_KEY);
    assert Lookup(a, SESSION_KEY) == Lookup(b, SESSION_KEY) && Lookup(a, SESSIONS_KEY) == Lookup(b, SESSIONS_KEY);
  }

  lemma UpdateKeepsOthers(e: Entry, r: Record, s: OutboxState, failure: Json.Value)
    ensures forall name :: FieldKey(name) !in r.fields ==>
              Lookup(e + UpdateOf(r, s), FieldKey(name)) == Lookup(e, FieldKey(name))
    ensures forall name :: Lookup(e + map[CleanupFailureKey := failure], FieldKey(name)) == Lookup(e, FieldKey(name))
    ensures Lookup(e + map[CleanupFailureKey := failure], KindKey) == Lookup(e, KindKey)
  {
  }

  lemma ApplyingKeepsNames(e: Entry, r: Record, w: WorkerId, session: SessionId)
    requires forall name :: FieldKey(name) in r.fields ==> Lookup(e, FieldKey(name)) == r.fields[FieldKey(name)]
    ensures Names(e, w, session) ==> Names(e + UpdateOf(r, AppliedState), w, session)
  {
    hide EntryState, UpdateOf, Names;
    var b := e + UpdateOf(r, AppliedState);
    MarkedState(e, r, AppliedState, Json.Null);
    UpdateCarriesFields(e, r, AppliedState);
    UpdateKeepsOthers(e, r, AppliedState, Json.Null);
    forall name ensures Lookup(e, FieldKey(name)) == Lookup(b, FieldKey(name)) { }
    FieldsDecide(e, b, w, session);
  }

  lemma NotingKeepsNames(e: Entry, failure: Json.Value, w: WorkerId, session: SessionId)
    ensures Names(e, w, session) ==> Names(e + map[CleanupFailureKey := failure], w, session)
  {
    hide EntryState, UpdateOf;
    MarkedState(e, Record("", "", map[]), AppliedState, failure);
    UpdateKeepsOthers(e, Record("", "", map[]), AppliedState, failure);
    var b := e + map[CleanupFailureKey := failure];
    if Names(e, w, session) { FieldsDecide(e, b, w, session); }
  }

  /** While it names a session, an entry goes on to do so under every step of its transaction except being finalized. */
  lemma OwnEntryHolds(entries: seq<Item>, tx: Outbox.Tx, step: Outbox.Step, w: WorkerId, session: SessionId)
    requires Outbox.TxOk(entries, tx, step.id) && Faithful(entries, tx)
    requires Outbox.Enabled(entries, tx, step.id, step.action)
    requires tx.kind == CREATE_KIND ==> CreationFlow(tx, step.action)
    requires Holds(entries, w, session) && !step.action.FinalizeLater?
    ensures Holds(Outbox.WrittenEntries(entries, tx, step.action), w, session)
  {
    hide EntryOf, UpdateOf, Records, Creates, Outbox.EntriesOk, EntryState, UncertainUpdate;
    var e := entries[0].entry;
    HoldingState(entries, tx, step.id, w, session);
    assert Names(e, w, session);
    match step.action {
      case RecordIntent(_) => assert false;
      case ReturnCall(_) =>
      case RaiseCall(_) =>
      case NoteUncertain(_) => assert false;
      case BreakRecord => assert false;
      case MarkSucceeded(_, _) => assert false;
      case Remark(_) => assert false;
      case Settle(result) => if result.RecordApplied? { ApplyingKeepsNames(e, result.record, w, session); }
      case NoteCleanupFailure(failure) => NotingKeepsNames(e, failure, w, session);
      case Crash =>
    }
  }

  lemma HoldingState(entries: seq<Item>, tx: Outbox.Tx, id: EntryId, w: WorkerId, session: SessionId)
    requires Outbox.TxOk(entries, tx, id) && Holds(entries, w, session) && !tx.pc.NotStarted?
    ensures tx.kind == CREATE_KIND && !tx.pc.Raising? && !tx.pc.Replied? && !tx.pc.Calling?
  {
    hide EntryState, Creates;
  }

  lemma JournalLosesIff(s: Store, step: Outbox.Step, w: WorkerId, session: SessionId)
    requires Sound(s) && Possible(s, step) && Kept(s, w, session)
    ensures Kept(AfterJournal(s, step), w, session) <==> !FinalizesLast(s, Journal(step), w, session)
  {
    hide Outbox.TxOk, Faithful, Carrying, Outbox.Enabled, CreationFlow, Outbox.Next, Outbox.WrittenEntries,
         Outbox.NextTx, Outbox.OwnRecords, Applies, MarksCreated, WorkersWith, WorkerIn, SessionIn, InJournal,
         HeldElsewhere, Holds,
         WantedOf;
    var tx, entries := Outbox.TxOf(s.outbox, step.id), EntriesOf(s.outbox.field, step.id);
    assert Outbox.TxOk(entries, tx, step.id) && Faithful(entries, tx);
    Outbox.TxOkOwns(entries, tx, step.id);
    OwnView(s.outbox, step);
    Singles(entries, tx, step);
    ElsewhereStays(s, step, w, session);
    InJournalSplits(s.outbox.field, step.id, w, session);
    InJournalSplits(AfterJournal(s, step).outbox.field, step.id, w, session);
    if Holds(entries, w, session) && !step.action.FinalizeLater? { OwnEntryHolds(entries, tx, step, w, session); }
    JournalKeepsWanted(s, step, w, session);
    FinalizingOwn(entries, tx, step, w, session);
  }

  lemma JournalKeepsWanted(s: Store, step: Outbox.Step, w: WorkerId, session: SessionId)
    ensures session in WantedOf(s.workers, w) ==> session in WantedOf(AfterJournal(s, step).workers, w)
  {
    hide Outbox.Next, WorkersWith, WantedOf, MarksCreated;
    if Applies(Outbox.TxOf(s.outbox, step.id), step) {
      AppliedIsWanted(s.workers, step.action.result.record, w, session);
    }
  }

  lemma Singles(entries: seq<Item>, tx: Outbox.Tx, step: Outbox.Step)
    requires Outbox.TxOk(entries, tx, step.id) && Outbox.Enabled(entries, tx, step.id, step.action)
    requires tx.kind == CREATE_KIND ==> CreationFlow(tx, step.action)
    ensures |entries| <= 1
    ensures |if step.ok then Outbox.WrittenEntries(entries, tx, step.action) else entries| <= 1
  {
    hide Outbox.TxOk, Outbox.Enabled, CreationFlow, Outbox.WrittenEntries, Outbox.NextTx;
    Outbox.WrittenOk(entries, tx, step.id, step.action);
    SingleBefore(entries, tx, step);
    SingleAfter(entries, tx, step);
  }

  lemma SingleBefore(entries: seq<Item>, tx: Outbox.Tx, step: Outbox.Step)
    requires Outbox.TxOk(entries, tx, step.id) && Outbox.Enabled(entries, tx, step.id, step.action)
    ensures |entries| <= 1
  {
  }

  lemma SingleAfter(entries: seq<Item>, tx: Outbox.Tx, step: Outbox.Step)
    requires Outbox.TxOk(entries, tx, step.id) && Outbox.Enabled(entries, tx, step.id, step.action)
    requires Outbox.TxOk(Outbox.WrittenEntries(entries, tx, step.action), Outbox.NextTx(tx, step.action, true), step.id)
    ensures |Outbox.WrittenEntries(entries, tx, step.action)| <= 1
  {
    hide Outbox.WrittenEntries, EntryState;
  }

  lemma FinalizingOwn(entries: seq<Item>, tx: Outbox.Tx, step: Outbox.Step, w: WorkerId, session: SessionId)
    ensures step.action.FinalizeLater? ==> !Holds(Outbox.WrittenEntries(entries, tx, step.action), w, session)
    ensures step.action.FinalizeLater? ==> !Applies(tx, step)
  {
  }

  lemma CleanLosesIff(s: Store, step: Step, w: WorkerId, session: SessionId)
    requires step.Clean? && step.worker in s.plan && session != "" && Kept(s, w, session)
    ensures Kept(Next(s, step), w, session) <==> !OverwritesLast(s, step, w, session)
  {
    hide Wanted, CleanedUp, Carrying, DisposalOf, Offer, Confirmed, InJournal;
    if step.worker in s.workers {
      var ids := s.plan[step.worker];
      var cleaned := CleanedUp(step.base, ids, step.answers);
      CleanupIsWritten(s.workers[step.worker], step.worker, cleaned);
      WantedAfterCleanup(step.base, ids, step.answers, session);
      VerifiedMeansGone(ids, step.answers, session);
      ConfirmedIsAttempted(ids, step.answers, session);
    }
  }

  lemma QuietStepKeeps(s: Store, step: Step, w: WorkerId, session: SessionId)
    requires step.Offered? || step.Plan? || step.AbandonPlan? || (step.Journal? && !Possible(s, step.step))
             || (step.Clean? && step.worker !in s.plan)
    ensures Kept(Next(s, step), w, session) == Kept(s, w, session)
  {
    hide Wanted, Offer, LeavesCleanup, CleanupPlan, Possible, InJournal;
    if step.Offered? && LeavesCleanup(step.t) && step.t.workerId in s.workers {
      OtherTransitionsKeepCleanup(s.workers[step.t.workerId], step.t);
    }
  }

  /** A step makes a session unknown before its deletion was verified exactly if it is a committed cleanup write on the
      session's worker, for which the session is outside the plan, unverified and no longer held by an entry, or a
      committed finalization of the last entry that holds it when it is neither wanted nor verified. */
  lemma LosesIff(s: Store, step: Step, w: WorkerId, session: SessionId)
    requires Sound(s) && session != "" && Kept(s, w, session)
    ensures !Kept(Next(s, step), w, session) <==> Loses(s, step, w, session)
  {
    hide Sound, Kept, OverwritesLast, FinalizesLast, AfterJournal, AfterClean, Possible;
    KindsApart(s, step, w, session);
    if step.Journal? && Possible(s, step.step) {
      JournalLosesIff(s, step.step, w, session);
    } else if step.Clean? && step.worker in s.plan {
      CleanLosesIff(s, step, w, session);
    } else {
      QuietStepKeeps(s, step, w, session);
    }
  }

  lemma KindsApart(s: Store, step: Step, w: WorkerId, session: SessionId)
    ensures OverwritesLast(s, step, w, session) ==> step.Clean? && step.worker in s.plan
    ensures FinalizesLast(s, step, w, session) ==> step.Journal? && Possible(s, step.step)
  {
  }

  // ----- Whole runs -----

  ghost predicate KeptThroughout(s: Store, steps: seq<Step>, w: WorkerId, session: SessionId)
    decreases |steps|
  {
    Kept(s, w, session) && (steps == [] || KeptThroughout(Next(s, steps[0]), steps[1..], w, session))
  }

  ghost predicate NeverLoses(s: Store, steps: seq<Step>, w: WorkerId, session: SessionId)
    decreases |steps|
  {
    steps == [] || (!Loses(s, steps[0], w, session) && NeverLoses(Next(s, steps[0]), steps[1..], w, session))
  }

  lemma {:induction false} KeptThroughoutIff(s: Store, steps: seq<Step>, w: WorkerId, session: SessionId)
    requires Sound(s) && session != "" && Kept(s, w, session)
    ensures KeptThroughout(s, steps, w, session) <==> NeverLoses(s, steps, w, session)
    decreases |steps|
  {
    hide Sound, Kept, Loses, Next;
    if steps != [] {
      LosesIff(s, steps[0], w, session);
      SoundStep(s, steps[0]);
      var next := Next(s, steps[0]);
      if Kept(next, w, session) {
        KeptThroughoutIff(next, steps[1..], w, session);
      } else {
        ThroughoutStartsKept(next, steps[1..], w, session);
      }
    }
  }

  lemma ThroughoutStartsKept(s: Store, steps: seq<Step>, w: WorkerId, session: SessionId)
    ensures KeptThroughout(s, steps, w, session) ==> Kept(s, w, session)
  {
    hide Kept, Next;
  }

  lemma {:induction false} RunIsSound(s: Store, steps: seq<Step>)
    requires Sound(s)
    ensures Sound(RunOf(s, steps))
    decreases |steps|
  {
    hide Sound, Next;
    if steps != [] {
      SoundStep(s, steps[0]);
      RunIsSound(Next(s, steps[0]), steps[1..]);
    }
  }

  lemma BeginIsSound(f: Field, workers: WorkerMap)
    ensures Sound(Begin(f, workers))
  {
    hide Carrying;
    Outbox.IdleIsConsistent(f);
  }

  /** The write that persists a remote success makes the session known. */
  lemma PersistedSuccessIsKept(s: Store, step: Outbox.Step)
    requires Sound(s) && Possible(s, step) && MarksCreated(Outbox.TxOf(s.outbox, step.id), step)
    ensures var r := step.action.record;
            SessionIn(r) != "" && Kept(AfterJournal(s, step), WorkerIn(r), SessionIn(r))
  {
    hide Outbox.TxOk, Carrying, Outbox.Enabled, CreationFlow, Outbox.Next, Outbox.WrittenEntries, Outbox.NextTx, Holds,
         WorkersWith, WorkerIn, SessionIn, InJournal, HeldElsewhere, WantedOf, AsksCleanup, Applies;
    var tx, entries := Outbox.TxOf(s.outbox, step.id), EntriesOf(s.outbox.field, step.id);
    assert Outbox.TxOk(entries, tx, step.id);
    OwnView(s.outbox, step);
    NewCreation(entries, tx, step);
    Singles(entries, tx, step);
    InJournalSplits(AfterJournal(s, step).outbox.field, step.id, WorkerIn(step.action.record),
        SessionIn(step.action.record));
  }

  /** From its persisted success on, a session created for cleanup stays known exactly in the runs without one of the
      two losing steps: whatever is applied, finalized, partly cleaned, refused or cut short. */
  lemma CreatedSessionsAreKeptIff(f: Field, workers: WorkerMap, before: seq<Step>, step: Outbox.Step, after: seq<Step>)
    requires Possible(RunOf(Begin(f, workers), before), step)
    requires MarksCreated(Outbox.TxOf(RunOf(Begin(f, workers), before).outbox, step.id), step)
    ensures var s := AfterJournal(RunOf(Begin(f, workers), before), step);
            var w, session := WorkerIn(step.action.record), SessionIn(step.action.record);
            KeptThroughout(s, after, w, session) <==> NeverLoses(s, after, w, session)
  {
    hide Sound, Kept, RunOf, AfterJournal, Possible, MarksCreated, WorkerIn, SessionIn;
    BeginIsSound(f, workers);
    RunIsSound(Begin(f, workers), before);
    var s := RunOf(Begin(f, workers), before);
    PersistedSuccessIsKept(s, step);
    SoundJournal(s, step);
    MarksAction(Outbox.TxOf(s.outbox, step.id), step);
    KeptThroughoutIff(AfterJournal(s, step), after, WorkerIn(step.action.record), SessionIn(step.action.record));
  }

  lemma MarksAction(tx: Outbox.Tx, step: Outbox.Step)
    requires MarksCreated(tx, step)
    ensures step.action.MarkSucceeded?
  {
  }
}
