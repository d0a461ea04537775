/** Creating a session as steps of the journal: what a creation that succeeds, or fails, takes and leaves. */
module CreationSteps {
  import opened Common
  import opened RemoteJournal
  import opened CleanupRecovery
  import opened SessionConservation
  import Execution
  import Json
  import Outbox

  function IntentFor(entry: EntryId, w: WorkerId, cleanup: bool): Record {
    Record(entry, CREATE_KIND, map[WORKER_KEY := Json.Int(w), CLEANUP_KEY := Json.Bool(cleanup)])
  }

  function CreatedFor(entry: EntryId, w: WorkerId, cleanup: bool, session: SessionId): Record {
    Record(entry, CREATE_KIND,
           map[WORKER_KEY := Json.Int(w), CLEANUP_KEY := Json.Bool(cleanup),
               SESSION_KEY := Json.Text(session), SESSIONS_KEY := Json.List([Json.Text(session)])])
  }

  function Taken(entry: EntryId, action: Outbox.Action): Step {
    Journal(Outbox.Step(entry, action, true))
  }

  /** Record the intent, create, note the success, remember the session on the worker, and finalize the entry. */
  function CreationSteps(entry: EntryId, w: WorkerId, cleanup: bool, session: SessionId): seq<Step> {
    var created := CreatedFor(entry, w, cleanup, session);
    [Taken(entry, Outbox.RecordIntent(IntentFor(entry, w, cleanup))), Taken(entry, Outbox.ReturnCall(true)),
     Taken(entry, Outbox.MarkSucceeded(created, RecordMissing)),
     Taken(entry, Outbox.Settle(Outbox.RecordApplied(created, RecordMissing))), Taken(entry, Outbox.FinalizeLater)]
  }

  /** A creation whose call raises, with or without an effect. */
  function FailedSteps(entry: EntryId, w: WorkerId, cleanup: bool, effect: bool, failure: Json.Value): seq<Step> {
    [Taken(entry, Outbox.RecordIntent(IntentFor(entry, w, cleanup))), Taken(entry, Outbox.RaiseCall(effect)),
     Taken(entry, Outbox.NoteUncertain(failure))]
  }

  ghost predicate Owns(s: Store, entry: EntryId, tx: Outbox.Tx) {
    Outbox.Consistent(s.outbox) && Outbox.TxOf(s.outbox, entry) == tx
  }

  lemma TakesStep(s: Store, tx: Outbox.Tx, entry: EntryId, action: Outbox.Action)
    requires Owns(s, entry, tx) && Outbox.Enabled(EntriesOf(s.outbox.field, entry), tx, entry, action)
    requires tx.kind == CREATE_KIND ==> CreationFlow(tx, action)
    ensures var step := Outbox.Step(entry, action, true); var next := Next(s, Taken(entry, action));
            && next == AfterJournal(s, step) && Owns(next, entry, Outbox.NextTx(tx, action, true))
            && next.plan == s.plan && next.verified == s.verified
            && next.workers == if Applies(tx, step) then WorkersWith(s.workers, action.result.record) else s.workers
  {
    hide Outbox.Enabled, CreationFlow, Carrying, Outbox.NextTx, Outbox.Next, Outbox.Consistent, WorkersWith, Applies,
         MarksCreated;
    var step := Outbox.Step(entry, action, true);
    Outbox.StepTaken(s.outbox, step, tx);
    Outbox.StepKeepsConsistent(s.outbox, step);
  }

  lemma RecordsAreRight(entry: EntryId, w: WorkerId, cleanup: bool, session: SessionId)
    requires entry != "" && session != ""
    ensures var intent, created := IntentFor(entry, w, cleanup), CreatedFor(entry, w, cleanup, session);
            && intent.Valid() && created.Valid()
            && WorkerIn(intent) == w && AsksCleanup(intent) == cleanup
            && WorkerIn(created) == w && AsksCleanup(created) == cleanup && SessionIn(created) == session
            && Records(created, w, cleanup, session)
  {
  }

  function CallingTx(entry: EntryId, w: WorkerId, cleanup: bool): Outbox.Tx {
    Outbox.Tx(Outbox.Calling, CREATE_KIND, Some(IntentFor(entry, w, cleanup)), false, false, false, 0, false)
  }

  function RepliedTx(entry: EntryId, w: WorkerId, cleanup: bool): Outbox.Tx {
    CallingTx(entry, w, cleanup).(pc := Outbox.Replied, performed := true, returned := true)
  }

  function MarkedTx(entry: EntryId, w: WorkerId, cleanup: bool, session: SessionId): Outbox.Tx {
    RepliedTx(entry, w, cleanup).(pc := Outbox.Marked(CreatedFor(entry, w, cleanup, session)))
  }

  function AppliedTx(entry: EntryId, w: WorkerId, cleanup: bool): Outbox.Tx {
    RepliedTx(entry, w, cleanup).(pc := Outbox.Ended, settled := 1, completed := true)
  }

  /** Each step of a creation is enabled where the one before it led. */
  lemma CreationIsEnabled(entry: EntryId, w: WorkerId, cleanup: bool, session: SessionId)
    requires entry != "" && session != ""
    ensures var intent, created := IntentFor(entry, w, cleanup), CreatedFor(entry, w, cleanup, session);
            var record, mark := Outbox.RecordIntent(intent), Outbox.MarkSucceeded(created, RecordMissing);
            var apply := Outbox.Settle(Outbox.RecordApplied(created, RecordMissing));
            var calling, replied := CallingTx(entry, w, cleanup), RepliedTx(entry, w, cleanup);
            var marked, applied := MarkedTx(entry, w, cleanup, session), AppliedTx(entry, w, cleanup);
            && Outbox.Enabled([], Outbox.UNSTARTED, entry, record)
            && Outbox.NextTx(Outbox.UNSTARTED, record, true) == calling
            && (forall entries :: Outbox.Enabled(entries, calling, entry, Outbox.ReturnCall(true)))
            && Outbox.NextTx(calling, Outbox.ReturnCall(true), true) == replied
            && CreationFlow(calling, Outbox.ReturnCall(true))
            && (forall entries :: Outbox.Enabled(entries, replied, entry, mark))
            && Outbox.NextTx(replied, mark, true) == marked && CreationFlow(replied, mark)
            && (forall entries :: Outbox.Enabled(entries, marked, entry, apply))
            && Outbox.NextTx(marked, apply, true) == applied && CreationFlow(marked, apply)
            && (forall entries :: Outbox.Enabled(entries, applied, entry, Outbox.FinalizeLater))
            && CreationFlow(applied, Outbox.FinalizeLater)
  {
    hide Records, AsksCleanup, WorkerIn, SessionIn;
    RecordsAreRight(entry, w, cleanup, session);
  }

  lemma OnlyApplyingApplies(tx: Outbox.Tx, entry: EntryId, action: Outbox.Action)
    ensures Applies(tx, Outbox.Step(entry, action, true)) <==>
            tx.kind == CREATE_KIND && action.Settle? && action.result.RecordApplied?
  {
  }

  lemma FiveSteps(s: Store, a: Step, b: Step, c: Step, d: Step, e: Step)
    ensures RunOf(s, [a, b, c]) == Next(Next(Next(s, a), b), c)
    ensures RunOf(s, [a, b, c, d, e]) == Next(Next(Next(Next(Next(s, a), b), c), d), e)
  {
    hide Next;
    RunAppend(s, [], a);
    RunAppend(s, [a], b);
    RunAppend(s, [a, b], c);
    RunAppend(s, [a, b, c], d);
    RunAppend(s, [a, b, c, d], e);
    assert [] + [a] == [a] && [a] + [b] == [a, b] && [a, b] + [c] == [a, b, c];
    assert [a, b, c] + [d] == [a, b, c, d] && [a, b, c, d] + [e] == [a, b, c, d, e];
    assert RunOf(s, []) == s;
  }

  /** The entry id is fresh. */
  ghost predicate Fresh(s: Store, entry: EntryId) {
    entry != "" && Owns(s, entry, Outbox.UNSTARTED) && EntriesOf(s.outbox.field, entry) == []
  }

  /** A creation with a fresh id attaches its session to the worker, and remembers it if that was asked for. */
  lemma CreationRuns(s: Store, entry: EntryId, w: WorkerId, cleanup: bool, session: SessionId)
    requires Fresh(s, entry) && session != ""
    ensures var next := RunOf(s, CreationSteps(entry, w, cleanup, session));
            && next.workers == Execution.AttachSession(s.workers, w, session, cleanup)
            && next.plan == s.plan && next.verified == s.verified && Outbox.Consistent(next.outbox)
  {
    hide Outbox.Enabled, CreationFlow, Carrying, Outbox.NextTx, Next, Execution.AttachSession, Outbox.Consistent,
         Outbox.TxOf, WorkerIn, SessionIn, AsksCleanup, Records, AfterJournal, Applies;
    CreationIsEnabled(entry, w, cleanup, session);
    RecordsAreRight(entry, w, cleanup, session);
    var created := CreatedFor(entry, w, cleanup, session);
    var record, mark := Outbox.RecordIntent(IntentFor(entry, w, cleanup)), Outbox.MarkSucceeded(created, RecordMissing);
    var apply := Outbox.Settle(Outbox.RecordApplied(created, RecordMissing));
    forall tx, action { OnlyApplyingApplies(tx, entry, action); }
    TakesStep(s, Outbox.UNSTARTED, entry, record);
    var s1 := Next(s, Taken(entry, record));
    TakesStep(s1, CallingTx(entry, w, cleanup), entry, Outbox.ReturnCall(true));
    var s2 := Next(s1, Taken(entry, Outbox.ReturnCall(true)));
    TakesStep(s2, RepliedTx(entry, w, cleanup), entry, mark);
    var s3 := Next(s2, Taken(entry, mark));
    TakesStep(s3, MarkedTx(entry, w, cleanup, session), entry, apply);
    var s4 := Next(s3, Taken(entry, apply));
    TakesStep(s4, AppliedTx(entry, w, cleanup), entry, Outbox.FinalizeLater);
    FiveSteps(s, Taken(entry, record), Taken(entry, Outbox.ReturnCall(true)), Taken(entry, mark), Taken(entry, apply),
              Taken(entry, Outbox.FinalizeLater));
  }

  /** A creation whose call raises leaves the workers alone. */
  lemma FailureRuns(s: Store, entry: EntryId, w: WorkerId, cleanup: bool, effect: bool, failure: Json.Value)
    requires Fresh(s, entry)
    ensures var next := RunOf(s, FailedSteps(entry, w, cleanup, effect, failure));
            && next.workers == s.workers
            && next.plan == s.plan && next.verified == s.verified && Outbox.Consistent(next.outbox)
  {
    hide Carrying, Next, Outbox.Consistent, Outbox.TxOf, AfterJournal, Applies;
    CreationIsEnabled(entry, w, cleanup, "session");
    var record, call := Outbox.RecordIntent(IntentFor(entry, w, cleanup)), Outbox.RaiseCall(effect);
    forall tx, action { OnlyApplyingApplies(tx, entry, action); }
    TakesStep(s, Outbox.UNSTARTED, entry, record);
    var s1 := Next(s, Taken(entry, record));
    TakesStep(s1, CallingTx(entry, w, cleanup), entry, call);
    var s2 := Next(s1, Taken(entry, call));
    TakesStep(s2, Outbox.NextTx(CallingTx(entry, w, cleanup), call, true), entry, Outbox.NoteUncertain(failure));
    FiveSteps(s, Taken(entry, record), Taken(entry, call), Taken(entry, Outbox.NoteUncertain(failure)),
              AbandonPlan, AbandonPlan);
  }

  // ----- Fresh ids -----

  lemma LongerThanAll(texts: set<string>) returns (n: nat)
    ensures forall t :: t in texts ==> |t| < n
  {
    n := 1;
    if texts != {} {
      var t :| t in texts;
      var m := LongerThanAll(texts - {t});
      n := m + |t| + 1;
      forall x | x in texts ensures |x| < n { assert x == t || x in texts - {t}; }
    }
  }

  lemma {:induction false} NoEntries(items: seq<Item>, entry: EntryId)
    requires forall i :: i in items ==> !HasId(i, entry)
    ensures Carrying(items, Some(Json.Text(entry))) == []
  {
    if items != [] {
      assert items[|items| - 1] in items;
      NoEntries(items[..|items| - 1], entry);
    }
  }

  /** There always is a fresh id. */
  lemma FreshId(s: Store) returns (entry: EntryId)
    requires Outbox.Consistent(s.outbox)
    ensures Fresh(s, entry)
  {
    var items := ItemsIn(s);
    var used := set i | i in items && i.Dict? && Lookup(i.entry, IdKey).Text? :: Lookup(i.entry, IdKey).text;
    var n := LongerThanAll(s.outbox.txs.Keys + used);
    entry := seq(n + 1, _ => 'x');
    assert entry !in used;
    forall i | i in items ensures !HasId(i, entry) { }
    NoEntries(items, entry);
    assert entry !in s.outbox.txs;
  }
}
