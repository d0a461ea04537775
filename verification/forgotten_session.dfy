/** Runs that forget a session: it is created for a worker while another process works off that worker's cleanup. */
module ForgottenSession {
  import opened Common
  import opened Workers
  import opened DependencyAnalysis
  import opened RemoteJournal
  import opened CleanupRecovery
  import opened SessionConservation
  import opened SessionLosses
  import opened CreationSteps
  import Json
  import Outbox

  const ENTRY: EntryId := "creation"
  const EARLIER: SessionId := "ses_earlier"
  const LATER: SessionId := "ses_later"

  const INTENT := IntentFor(ENTRY, 1, true)
  const CREATED := CreatedFor(ENTRY, 1, true, LATER)

  /** The worker that the first process attached its session to, remembered for cleanup. */
  const OCCUPIED: Worker := SessionRemembered(DefaultWorker(1).(session := Some(EARLIER)), EARLIER)

  const ALONE: WorkerMap := map[1 := OCCUPIED]

  const ALL_GONE: nat -> Answers := (i: nat) => Answers(Answered, Refused(Some(404), "session not found"))

  const RECORD := Outbox.Step(ENTRY, Outbox.RecordIntent(INTENT), true)
  const CALL := Outbox.Step(ENTRY, Outbox.ReturnCall(true), true)
  const MARK := Outbox.Step(ENTRY, Outbox.MarkSucceeded(CREATED, RecordMissing), true)
  const APPLY := Outbox.Step(ENTRY, Outbox.Settle(Outbox.RecordApplied(CREATED, RecordMissing)), true)
  const FINALIZE := Outbox.Step(ENTRY, Outbox.FinalizeLater, true)

  /** The journal holds nothing but entries of one transaction. */
  predicate Only(f: Field, id: EntryId) {
    forall i :: i in ItemsOf(f) ==> HasId(i, id)
  }

  lemma OnlyStays(f: Field, tx: Outbox.Tx, id: EntryId, a: Outbox.Action)
    requires Outbox.OwnRecords(tx, id) && Outbox.Enabled(EntriesOf(f, id), tx, id, a) && Only(f, id)
    ensures Only(Outbox.Written(f, tx, id, a), id)
  {
    hide HasId, Carrying, EntryOf, UpdateOf, Outbox.Enabled, Outbox.Written, Outbox.WrittenEntries;
    forall i | i in ItemsOf(Outbox.Written(f, tx, id, a)) ensures HasId(i, id) {
      HasIdIs(i, id, map[]);
      if !HasId(i, id) {
        Outbox.WrittenView(f, tx, id, a, IdOf(i));
        Carries(ItemsOf(Outbox.Written(f, tx, id, a)), i);
        Outbox.CarryingMembers(ItemsOf(f), IdOf(i));
        var j := Carrying(ItemsOf(f), IdOf(i))[0];
        CarriesOnly(ItemsOf(f), IdOf(i));
        HasIdIs(j, id, map[]);
        assert false;
      }
    }
  }

  lemma {:induction false} Carries(items: seq<Item>, i: Item)
    requires i in items
    ensures Carrying(items, IdOf(i)) != []
  {
    var n := |items| - 1;
    assert items == items[..n] + [items[n]];
    if items[n] != i { Carries(items[..n], i); }
  }

  lemma {:induction false} CarriesOnly(items: seq<Item>, owner: Option<Json.Value>)
    ensures forall i :: i in Carrying(items, owner) ==> IdOf(i) == owner
  {
    if items != [] { CarriesOnly(items[..|items| - 1], owner); }
  }

  /** A store whose journal belongs to the one creation, in transaction state tx. */
  ghost predicate At(s: Store, tx: Outbox.Tx) {
    && Outbox.Consistent(s.outbox) && Only(s.outbox.field, ENTRY) && Outbox.TxOf(s.outbox, ENTRY) == tx
  }

  lemma Advance(s: Store, tx: Outbox.Tx, step: Outbox.Step)
    requires At(s, tx) && step.id == ENTRY && step.ok
    requires Outbox.Enabled(EntriesOf(s.outbox.field, ENTRY), tx, ENTRY, step.action)
    requires tx.kind == CREATE_KIND ==> CreationFlow(tx, step.action)
    ensures Next(s, Journal(step)) == AfterJournal(s, step)
    ensures At(AfterJournal(s, step), Outbox.NextTx(tx, step.action, true))
    ensures EntriesOf(AfterJournal(s, step).outbox.field, ENTRY) ==
            Outbox.WrittenEntries(EntriesOf(s.outbox.field, ENTRY), tx, step.action)
  {
    hide Outbox.Enabled, CreationFlow, Outbox.TxOk, Carrying, Outbox.WrittenEntries, Outbox.NextTx, Outbox.Written,
         Only;
    var entries := EntriesOf(s.outbox.field, ENTRY);
    assert Outbox.TxOk(entries, tx, ENTRY);
    Outbox.TxOkOwns(entries, tx, ENTRY);
    OnlyStays(s.outbox.field, tx, ENTRY, step.action);
    OwnView(s.outbox, step);
    Outbox.StepTaken(s.outbox, step, tx);
    Outbox.StepKeepsConsistent(s.outbox, step);
  }

  const CALLING := CallingTx(ENTRY, 1, true)
  const REPLIED := RepliedTx(ENTRY, 1, true)
  const MARKED := MarkedTx(ENTRY, 1, true, LATER)
  const APPLIED := AppliedTx(ENTRY, 1, true)

  lemma Enables()
    ensures MarksCreated(REPLIED, MARK) && Applies(MARKED, APPLY)
  {
    hide WorkerIn, SessionIn;
    RecordsAreRight(ENTRY, 1, true, LATER);
  }

  /** Recording, calling, marking and applying the creation, seen from outside. */
  lemma CreationApplied(s: Store) returns (next: Store)
    requires At(s, Outbox.UNSTARTED) && EntriesOf(s.outbox.field, ENTRY) == []
    ensures next == RunOf(s, [Journal(RECORD), Journal(CALL), Journal(MARK), Journal(APPLY)])
    ensures At(next, APPLIED)
    ensures next.created == s.created[ENTRY := (1, LATER)] && next.plan == s.plan && next.verified == s.verified
    ensures next.workers == WorkersWith(s.workers, CREATED)
    ensures Holds(EntriesOf(next.outbox.field, ENTRY), 1, LATER)
  {
    hide At, Outbox.Enabled, CreationFlow, Carrying, Outbox.WrittenEntries, Outbox.NextTx, Outbox.Next, WorkersWith,
         MarksCreated,
         Applies, Next, WorkerIn, SessionIn, Outbox.TxOf, Holds, AsksCleanup;
    Enables();
    CreationIsEnabled(ENTRY, 1, true, LATER);
    RecordsAreRight(ENTRY, 1, true, LATER);
    Advance(s, Outbox.UNSTARTED, RECORD);
    var s1 := AfterJournal(s, RECORD);
    QuietJournal(s, Outbox.UNSTARTED, RECORD);
    Advance(s1, CALLING, CALL);
    var s2 := AfterJournal(s1, CALL);
    QuietJournal(s1, CALLING, CALL);
    Advance(s2, REPLIED, MARK);
    var s3 := AfterJournal(s2, MARK);
    AtIs(s2, REPLIED);
    MarkDoesNotApply();
    Advance(s3, MARKED, APPLY);
    next := AfterJournal(s3, APPLY);
    AtIs(s3, MARKED);
    ApplyDoesNotMark();
    MarkAndApplyHold(EntriesOf(s2.outbox.field, ENTRY), s2, s3);
    FourSteps(s, Journal(RECORD), Journal(CALL), Journal(MARK), Journal(APPLY));
  }

  lemma MarkAndApplyHold(entries: seq<Item>, s2: Store, s3: Store)
    requires At(s2, REPLIED) && entries == EntriesOf(s2.outbox.field, ENTRY) && At(s3, MARKED)
    requires EntriesOf(s3.outbox.field, ENTRY) == Outbox.WrittenEntries(entries, REPLIED, MARK.action)
    ensures Holds(Outbox.WrittenEntries(EntriesOf(s3.outbox.field, ENTRY), MARKED, APPLY.action), 1, LATER)
  {
    hide Outbox.Enabled, CreationFlow, Carrying, Outbox.WrittenEntries, Outbox.NextTx, Outbox.TxOk, Holds, Faithful,
         MarksCreated, Only, WorkerIn, SessionIn;
    Enables();
    CreationIsEnabled(ENTRY, 1, true, LATER);
    RecordsAreRight(ENTRY, 1, true, LATER);
    AtIsOk(s2, REPLIED);
    AtIsOk(s3, MARKED);
    NewCreation(entries, REPLIED, MARK);
    CreatedHolds(Outbox.WrittenEntries(entries, REPLIED, MARK.action), MARKED);
    NotMarkedIsFaithful(entries);
    MarkingIsFaithful(entries, REPLIED, MARK);
    OwnEntryHolds(EntriesOf(s3.outbox.field, ENTRY), MARKED, APPLY, 1, LATER);
  }

  lemma CreatedHolds(entries: seq<Item>, tx: Outbox.Tx)
    requires CreatedOk(entries, tx, 1, LATER) && tx.settled == 0
    ensures Holds(entries, 1, LATER)
  {
  }

  lemma NotMarkedIsFaithful(entries: seq<Item>)
    ensures Faithful(entries, REPLIED)
  {
  }

  lemma AtIsOk(s: Store, tx: Outbox.Tx)
    requires At(s, tx)
    ensures Outbox.TxOk(EntriesOf(s.outbox.field, ENTRY), tx, ENTRY)
  {
    hide Outbox.TxOk, Carrying, Only;
  }

  lemma AtIs(s: Store, tx: Outbox.Tx)
    requires At(s, tx)
    ensures Outbox.TxOf(s.outbox, ENTRY) == tx
  {
  }

  lemma MarkDoesNotApply()
    ensures !Applies(REPLIED, MARK)
  {
  }

  lemma ApplyDoesNotMark()
    ensures !MarksCreated(MARKED, APPLY)
  {
  }

  lemma QuietJournal(s: Store, tx: Outbox.Tx, step: Outbox.Step)
    requires At(s, tx) && step.id == ENTRY && (step.action.RecordIntent? || step.action.ReturnCall?)
    ensures AfterJournal(s, step) == s.(outbox := Outbox.Next(s.outbox, step))
  {
    hide Outbox.Next;
  }

  lemma FourSteps(s: Store, a: Step, b: Step, c: Step, d: Step)
    ensures RunOf(s, [a, b, c, d]) == Next(Next(Next(Next(s, a), b), c), d)
  {
    hide Next;
    assert [a, b, c, d][1..] == [b, c, d] && [b, c, d][1..] == [c, d] && [c, d][1..] == [d] && [d][1..] == [];
    assert RunOf(Next(s, a), [b, c, d]) == RunOf(Next(Next(s, a), b), [c, d]);
    assert RunOf(Next(Next(Next(s, a), b), c), [d]) == RunOf(Next(Next(Next(Next(s, a), b), c), d), []);
  }

  const START := Begin(Missing, ALONE)

  /** The run up to the overwriting cleanup write, with the entry still there. */
  lemma CleanupOverwrites() returns (applied: Store, cleaned: Store)
    ensures applied == RunOf(Next(START, Plan(map[1 := [EARLIER]])),
                             [Journal(RECORD), Journal(CALL), Journal(MARK), Journal(APPLY)])
    ensures cleaned == Next(applied, Clean(1, OCCUPIED.cleanup, ALL_GONE, true))
    ensures At(applied, APPLIED) && At(cleaned, APPLIED)
    ensures 1 in applied.plan && 1 in applied.workers && LATER !in applied.plan[1] && LATER !in applied.verified
    ensures ENTRY in cleaned.created && cleaned.created[ENTRY] == (1, LATER) && cleaned.created == applied.created
    ensures LATER !in cleaned.verified && LATER in WantedOf(applied.workers, 1)
            && LATER !in WantedOf(cleaned.workers, 1)
    ensures Holds(EntriesOf(cleaned.outbox.field, ENTRY), 1, LATER)
  {
    hide Outbox.Enabled, CreationFlow, Carrying, Outbox.WrittenEntries, Outbox.NextTx, Outbox.Next, WorkersWith,
         Outbox.TxOf,
         CleanupPlan, DisposalOf, CleanedUp, Wanted, Offer, RunOf, Only, Outbox.Consistent, MarksCreated, Applies,
         Possible,
         Holds;
    var planned := Next(START, Plan(map[1 := [EARLIER]]));
    StartPlan();
    applied := CreationApplied(planned);
    AtIs(applied, APPLIED);
    cleaned := Next(applied, Clean(1, OCCUPIED.cleanup, ALL_GONE, true));
    var cleanup := CleanedUp(OCCUPIED.cleanup, applied.plan[1], ALL_GONE);
    AppliedKeepsWorker(planned.workers);
    RecordsAreRight(ENTRY, 1, true, LATER);
    AppliedIsWanted(planned.workers, CREATED, 1, LATER);
    CleanupIsWritten(applied.workers[1], 1, cleanup);
    WantedAfterCleanup(OCCUPIED.cleanup, applied.plan[1], ALL_GONE, LATER);
    VerifiedMeansGone(applied.plan[1], ALL_GONE, LATER);
    ConfirmedIsAttempted(applied.plan[1], ALL_GONE, LATER);
    assert WantedOf(cleaned.workers, 1) == Wanted(Some(cleanup));
  }

  lemma JournalOnly(f: Field, w: WorkerId, session: SessionId)
    requires Only(f, ENTRY)
    ensures !HeldElsewhere(ItemsOf(f), ENTRY, w, session)
  {
    hide Names;
    forall e | Dict(e) in ItemsOf(f) ensures Lookup(e, IdKey) == Json.Text(ENTRY) {
      assert HasId(Dict(e), ENTRY);
    }
  }

  lemma AtIsOnly(s: Store)
    requires At(s, APPLIED)
    ensures Only(s.outbox.field, ENTRY) && Outbox.Consistent(s.outbox)
    ensures Possible(s, FINALIZE)
  {
    hide Only, Outbox.Consistent, Outbox.Enabled, CreationFlow, Carrying;
    Enables();
    CreationIsEnabled(ENTRY, 1, true, LATER);
  }

  lemma FinalizedStore(s: Store) returns (end: Store)
    requires At(s, APPLIED)
    ensures end == Next(s, Journal(FINALIZE)) && end == s.(outbox := end.outbox)
    ensures At(end, APPLIED) && ItemsIn(end) == []
  {
    hide Outbox.Enabled, CreationFlow, Carrying, Outbox.WrittenEntries, Outbox.NextTx, Outbox.Next, Only,
         Outbox.Consistent,
         Possible;
    Enables();
    CreationIsEnabled(ENTRY, 1, true, LATER);
    FinalizingStays();
    Advance(s, APPLIED, FINALIZE);
    end := AfterJournal(s, FINALIZE);
    FinalizingChangesNothingElse(s);
    FinalizingEmpties(EntriesOf(s.outbox.field, ENTRY));
    AtIsOnly(end);
    EmptyJournal(end.outbox.field, ENTRY);
  }

  lemma FinalizingStays()
    ensures Outbox.NextTx(APPLIED, FINALIZE.action, true) == APPLIED
  {
  }

  /** A creation applied while another process works off its worker's plan: after the overwriting write only the journal
      entry names the session, and finalizing that entry forgets it, although nobody verified its deletion. */
  lemma OverlappingCleanupForgets() returns (applied: Store, cleaned: Store, end: Store)
    ensures applied == RunOf(Next(START, Plan(map[1 := [EARLIER]])),
                             [Journal(RECORD), Journal(CALL), Journal(MARK), Journal(APPLY)])
    ensures cleaned == Next(applied, Clean(1, OCCUPIED.cleanup, ALL_GONE, true))
    ensures end == Next(cleaned, Journal(FINALIZE))
    ensures Kept(cleaned, 1, LATER) && FinalizesLast(cleaned, Journal(FINALIZE), 1, LATER)
    ensures ENTRY in end.created && end.created[ENTRY] == (1, LATER) && !Kept(end, 1, LATER)
  {
    hide At, Holds, Possible, HeldElsewhere, RunOf, Next, WantedOf, Only, Carrying;
    applied, cleaned := CleanupOverwrites();
    end := FinalizedStore(cleaned);
    AtIsOnly(cleaned);
    JournalOnly(cleaned.outbox.field, 1, LATER);
    HoldingIsInJournal(cleaned.outbox.field, 1, LATER);
    NothingInEmptyJournal(1, LATER);
  }

  /** If the entry is finalized before the overwriting write, that write forgets the session. */
  lemma LateCleanupForgets() returns (finalized: Store, end: Store)
    ensures finalized == Next(RunOf(Next(START, Plan(map[1 := [EARLIER]])),
                                    [Journal(RECORD), Journal(CALL), Journal(MARK), Journal(APPLY)]), Journal(FINALIZE))
    ensures end == Next(finalized, Clean(1, OCCUPIED.cleanup, ALL_GONE, true))
    ensures Kept(finalized, 1, LATER) && OverwritesLast(finalized, Clean(1, OCCUPIED.cleanup, ALL_GONE, true), 1, LATER)
    ensures !Kept(end, 1, LATER)
  {
    hide At, Holds, Possible, RunOf, WantedOf, Only, Carrying, Next, DisposalOf, CleanedUp, Offer, InJournal;
    var applied, cleaned := CleanupOverwrites();
    finalized := FinalizedStore(applied);
    NothingInEmptyJournal(1, LATER);
    end := Next(finalized, Clean(1, OCCUPIED.cleanup, ALL_GONE, true));
    CleanLosesIff(finalized, Clean(1, OCCUPIED.cleanup, ALL_GONE, true), 1, LATER);
  }

  lemma HoldingIsInJournal(f: Field, w: WorkerId, session: SessionId)
    requires Holds(EntriesOf(f, ENTRY), w, session)
    ensures InJournal(ItemsOf(f), w, session)
  {
    hide Carrying, Requested, Creates;
    var entries := EntriesOf(f, ENTRY);
    Outbox.CarryingMembers(ItemsOf(f), Some(Json.Text(ENTRY)));
    assert entries[0] in entries;
    assert Dict(entries[0].entry) in ItemsOf(f);
  }

  lemma NothingInEmptyJournal(w: WorkerId, session: SessionId)
    ensures !InJournal([], w, session)
  {
  }

  lemma FinalizingEmpties(entries: seq<Item>)
    ensures Outbox.WrittenEntries(entries, APPLIED, FINALIZE.action) == []
  {
  }

  lemma FinalizingChangesNothingElse(s: Store)
    requires At(s, APPLIED)
    ensures AfterJournal(s, FINALIZE) == s.(outbox := Outbox.Next(s.outbox, FINALIZE))
  {
    hide Outbox.Next;
  }

  lemma AppliedKeepsWorker(workers: WorkerMap)
    requires 1 in workers
    ensures 1 in WorkersWith(workers, CREATED)
  {
    RecordsAreRight(ENTRY, 1, true, LATER);
  }

  lemma EmptyJournal(f: Field, id: EntryId)
    requires Only(f, id)
    requires EntriesOf(f, id) == []
    ensures ItemsOf(f) == []
  {
    hide Carrying, HasId;
    var items := ItemsOf(f);
    if items != [] {
      assert items[0] in items;
      HasIdIs(items[0], id, map[]);
      Carries(items, items[0]);
      assert false;
    }
  }

  lemma StartPlan()
    ensures var planned := Next(START, Plan(map[1 := [EARLIER]]));
            && 1 in planned.plan && EARLIER in planned.plan[1] && LATER !in planned.plan[1]
            && planned == START.(plan := planned.plan) && At(planned, Outbox.UNSTARTED)
            && EntriesOf(planned.outbox.field, ENTRY) == []
  {
    hide CleanupPlan, Lists, Recoverable;
    PlanExactly(map[1 := [EARLIER]], ALONE, [], 1, EARLIER);
    PlanExactly(map[1 := [EARLIER]], ALONE, [], 1, LATER);
    NothingRecoverable();
    ListsMeans(CleanupPlan(map[1 := [EARLIER]], ALONE, []));
    Outbox.IdleIsConsistent(Missing);
  }

  lemma ListsMeans(m: SessionMap)
    ensures Lists(map[1 := [EARLIER]], 1, EARLIER) && !Lists(map[1 := [EARLIER]], 1, LATER)
    ensures Lists(m, 1, EARLIER) && !Lists(m, 1, LATER) ==> 1 in m && EARLIER in m[1] && LATER !in m[1]
  {
  }

  lemma NothingRecoverable()
    ensures !Recoverable(ALONE, [], 1, LATER)
  {
    hide Outside;
    OutsideExactly([EARLIER], [""], LATER);
    assert |EARLIER| > 0 && EARLIER[4] != LATER[4];
    assert OCCUPIED.cleanup.value.sessions.value == [] + [EARLIER] == [EARLIER];
  }
}
