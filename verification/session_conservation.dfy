/** No session that was created for later cleanup is forgotten before its deletion was verified. */
module SessionConservation {
  import opened Common
  import opened Workers
  import opened DependencyAnalysis
  import opened RemoteJournal
  import opened CleanupRecovery
  import Execution
  import Json
  import Outbox
  import Planner

  /** The persisted run with its transactions, the sessions confirmed deleted, and the cleanup plan still to be worked
      off. created names the worker and session of every creation for cleanup whose success was persisted. */
  datatype Store = Store(
    outbox: Outbox.System,
    workers: WorkerMap,
    created: map<EntryId, (WorkerId, SessionId)>,
    verified: set<SessionId>,
    plan: SessionMap)

  datatype Step =
    | Journal(step: Outbox.Step)
    | Offered(t: Transition)
    | Plan(remembered: SessionMap)
    | Clean(worker: WorkerId, base: Option<Cleanup>, answers: nat -> Answers, ok: bool)
    | AbandonPlan

  function ItemsIn(s: Store): seq<Item> {
    ItemsOf(s.outbox.field)
  }

  /** The record of a created session. */
  predicate Records(r: Record, w: WorkerId, cleanup: bool, session: SessionId) {
    && session != ""
    && Lookup(r.fields, WORKER_KEY) == Json.Int(w)
    && Lookup(r.fields, CLEANUP_KEY) == Json.Bool(cleanup)
    && Lookup(r.fields, SESSION_KEY) == Json.Text(session)
    && Lookup(r.fields, SESSIONS_KEY) == Json.List([Json.Text(session)])
  }

  function WorkerIn(r: Record): WorkerId {
    if Lookup(r.fields, WORKER_KEY).Int? then Lookup(r.fields, WORKER_KEY).n else 0
  }

  function SessionIn(r: Record): SessionId {
    if Lookup(r.fields, SESSION_KEY).Text? then Lookup(r.fields, SESSION_KEY).text else ""
  }

  predicate AsksCleanup(r: Record) {
    Lookup(r.fields, CLEANUP_KEY) == Json.Bool(true)
  }

  /** How session creation drives the runner: a created session is recorded for the intent's worker with the intent's
      cleanup flag, and applied as recorded; a call that created nothing is left pending. */
  predicate CreationFlow(tx: Outbox.Tx, a: Outbox.Action) {
    match a
    case MarkSucceeded(r, missing) =>
      && missing == RecordMissing && tx.intent.Some?
      && if tx.performed then Records(r, WorkerIn(tx.intent.value), AsksCleanup(tx.intent.value), SessionIn(r))
         else r == tx.intent.value
    case Remark(_) => false
    case Settle(result) =>
      if tx.performed then tx.pc.Marked? && result == Outbox.RecordApplied(tx.pc.record, RecordMissing)
      else result.KeepPending?
    case _ => true
  }

  predicate Possible(s: Store, step: Outbox.Step) {
    var tx := Outbox.TxOf(s.outbox, step.id);
    && Outbox.Enabled(EntriesOf(s.outbox.field, step.id), tx, step.id, step.action)
    && (tx.kind == CREATE_KIND ==> CreationFlow(tx, step.action))
  }

  /** A committed application remembers the session on the worker, in the same write. */
  predicate Applies(tx: Outbox.Tx, step: Outbox.Step) {
    tx.kind == CREATE_KIND && step.ok && step.action.Settle? && step.action.result.RecordApplied?
  }

  predicate MarksCreated(tx: Outbox.Tx, step: Outbox.Step) {
    && tx.kind == CREATE_KIND && tx.performed && step.ok && step.action.MarkSucceeded?
    && AsksCleanup(step.action.record)
  }

  function AfterJournal(s: Store, step: Outbox.Step): Store {
    var tx := Outbox.TxOf(s.outbox, step.id);
    s.(outbox := Outbox.Next(s.outbox, step),
       workers := if Applies(tx, step) then WorkersWith(s.workers, step.action.result.record) else s.workers,
       created := if MarksCreated(tx, step)
                  then s.created[step.id := (WorkerIn(step.action.record), SessionIn(step.action.record))]
                  else s.created)
  }

  function WorkersWith(workers: WorkerMap, r: Record): WorkerMap {
    Execution.AttachSession(workers, WorkerIn(r), SessionIn(r), AsksCleanup(r))
  }

  /** Transitions of the other phases; snapshots are not issued by any of them. */
  predicate LeavesCleanup(t: Transition) {
    !t.payload.CleanupUpdated? && !t.payload.SnapshotApplied?
  }

  function AfterClean(s: Store, w: WorkerId, base: Option<Cleanup>, answers: nat -> Answers, ok: bool): Store
    requires w in s.plan
  {
    if w !in s.workers then s.(plan := s.plan - {w})
    else
      var verified := s.verified + Elements(DisposalOf(s.plan[w], answers).verified);
      if !ok then s.(verified := verified, plan := map[])
      else
        var t := Transition(w, CleanupUpdated(Some(CleanedUp(base, s.plan[w], answers))), None);
        s.(verified := verified, plan := s.plan - {w}, workers := s.workers[w := Offer(s.workers[w], t)])
  }

  function Next(s: Store, step: Step): Store {
    match step
    case Journal(j) => if Possible(s, j) then AfterJournal(s, j) else s
    case Offered(t) =>
      if LeavesCleanup(t) && t.workerId in s.workers
      then s.(workers := s.workers[t.workerId := Offer(s.workers[t.workerId], t)]) else s
    case Plan(remembered) => if s.plan == map[] then s.(plan := CleanupPlan(remembered, s.workers, ItemsIn(s))) else s
    case Clean(w, base, answers, ok) => if w in s.plan then AfterClean(s, w, base, answers, ok) else s
    case AbandonPlan => s.(plan := map[])
  }

  // ----- What every step keeps -----

  predicate Holds(entries: seq<Item>, w: WorkerId, session: SessionId) {
    && entries != [] && entries[0].Dict?
    && Requested(entries[0].entry, Some(CREATE_KIND), RECOVERABLE_STATES)
    && Creates(entries[0].entry, w, session)
  }

  /** Before its result is applied a creation is held by its journal entry. */
  predicate CreatedOk(entries: seq<Item>, tx: Outbox.Tx, w: WorkerId, session: SessionId) {
    && session != "" && tx.kind == CREATE_KIND && tx.performed && !tx.pc.NotStarted?
    && (tx.pc.Ended? || (tx.pc.Marked? && Records(tx.pc.record, w, true, session)))
    && (tx.completed ==> tx.settled > 0)
    && (tx.settled == 0 ==> Holds(entries, w, session))
  }

  /** Once applied it is held by the worker's cleanup record, until its deletion is verified. */
  predicate CoveredAt(s: Store, id: EntryId)
    requires id in s.created
  {
    var tx := Outbox.TxOf(s.outbox, id);
    && CreatedOk(EntriesOf(s.outbox.field, id), tx, s.created[id].0, s.created[id].1)
    && (tx.settled > 0 ==> s.created[id].1 in s.verified || s.created[id].1 in WantedOf(s.workers, s.created[id].0))
  }

  ghost predicate Covered(s: Store) {
    Outbox.Consistent(s.outbox) && forall id :: id in s.created ==> CoveredAt(s, id)
  }

  lemma RecordedCreation(entries: seq<Item>, tx: Outbox.Tx, id: EntryId, r: Record, w: WorkerId, session: SessionId)
    requires Outbox.EntriesOk(entries, tx, id) && entries != [] && tx.kind == CREATE_KIND
    requires Records(r, w, true, session)
    ensures Holds(Outbox.MarkedEntries(entries, r, RemoteSucceeded, RecordMissing), w, session)
  {
    hide EntryState, CreationOf, UpdateOf;
    var e := entries[0].entry + UpdateOf(r, RemoteSucceeded);
    MarkedState(entries[0].entry, r, RemoteSucceeded, Json.Null);
    UpdateKeepsIdentity(r, RemoteSucceeded);
    UpdateCarriesFields(entries[0].entry, r, RemoteSucceeded);
    CreationIsRead(e, w, session);
  }

  lemma UpdateCarriesFields(e: Entry, r: Record, s: OutboxState)
    ensures forall name :: FieldKey(name) in r.fields ==>
              Lookup(e + UpdateOf(r, s), FieldKey(name)) == r.fields[FieldKey(name)]
    ensures Lookup(e + UpdateOf(r, s), KindKey) == Lookup(e, KindKey)
  {
  }

  lemma CreationIsRead(e: Entry, w: WorkerId, session: SessionId)
    requires session != "" && Lookup(e, KindKey) == Json.Text(CREATE_KIND)
    requires Lookup(e, WORKER_KEY) == Json.Int(w) && Lookup(e, CLEANUP_KEY) == Json.Bool(true)
    requires Lookup(e, SESSION_KEY) == Json.Text(session) && Lookup(e, SESSIONS_KEY) == Json.List([Json.Text(session)])
    ensures Creates(e, w, session)
  {
  }

  lemma OtherTransitionsKeepCleanup(w: Worker, t: Transition)
    requires LeavesCleanup(t)
    ensures Offer(w, t).cleanup == w.cleanup
  {
    hide ReducePayload, AbortPassthrough, Legal;
    ReducingKeepsCleanup(w, t);
    PassingKeepsCleanup(w, t);
  }

  lemma ReducingKeepsCleanup(w: Worker, t: Transition)
    requires LeavesCleanup(t)
    ensures ReducePayload(w, t.workerId, t.payload).cleanup == w.cleanup
  {
  }

  lemma PassingKeepsCleanup(w: Worker, t: Transition)
    requires LeavesCleanup(t)
    ensures AbortPassthrough(w, t.payload).cleanup == w.cleanup
  {
  }

  /** The write of a cleanup is legal in every state and changes the cleanup record only. */
  lemma CleanupIsWritten(w: Worker, id: WorkerId, cleanup: Cleanup)
    ensures Apply(w, Transition(id, CleanupUpdated(Some(cleanup)), None)) ==
            Applied(w.(id := id, cleanup := Some(cleanup)))
    ensures Offer(w, Transition(id, CleanupUpdated(Some(cleanup)), None)).cleanup == Some(cleanup)
  {
  }

  lemma RememberedIsWanted(w: Worker, session: SessionId, s: SessionId)
    ensures s in Wanted(w.cleanup) || (s == session && s != "") ==> s in Wanted(SessionRemembered(w, session).cleanup)
  {
    hide Outside;
    var before := if w.cleanup.Some? then GetOr(w.cleanup.value.sessions, []) else [];
    OutsideExactly(before, [""], s);
    OutsideExactly(GetOr(SessionRemembered(w, session).cleanup.value.sessions, []), [""], s);
  }

  lemma AppliedIsWanted(workers: WorkerMap, r: Record, w: WorkerId, s: SessionId)
    ensures s in WantedOf(workers, w) ==> s in WantedOf(WorkersWith(workers, r), w)
    ensures AsksCleanup(r) && SessionIn(r) != "" && w == WorkerIn(r) && s == SessionIn(r) ==>
            s in WantedOf(WorkersWith(workers, r), w)
  {
    hide Wanted, SessionRemembered, AsksCleanup, SessionIn, WorkerIn;
    if w == WorkerIn(r) {
      var latest := Planner.Latest(workers, w).(session := Some(SessionIn(r)));
      RememberedIsWanted(latest, SessionIn(r), s);
    }
  }

  /** The creation's own steps keep it held by its entry until the application is committed. */
  lemma OwnStep(entries: seq<Item>, tx: Outbox.Tx, step: Outbox.Step, w: WorkerId, session: SessionId)
    requires Outbox.TxOk(entries, tx, step.id) && CreatedOk(entries, tx, w, session)
    requires Outbox.Enabled(entries, tx, step.id, step.action) && CreationFlow(tx, step.action)
    ensures CreatedOk(if step.ok then Outbox.WrittenEntries(entries, tx, step.action) else entries,
                      Outbox.NextTx(tx, step.action, step.ok), w, session)
    ensures Outbox.NextTx(tx, step.action, step.ok).settled > 0 ==>
              tx.settled > 0 || (Applies(tx, step) && Records(step.action.result.record, w, true, session))
    ensures !MarksCreated(tx, step)
  {
    hide EntryState, CreationOf, UpdateOf, EntryOf, Records, Holds, Amended;
  }

  lemma NewCreation(entries: seq<Item>, tx: Outbox.Tx, step: Outbox.Step)
    requires Outbox.TxOk(entries, tx, step.id)
    requires Outbox.Enabled(entries, tx, step.id, step.action) && CreationFlow(tx, step.action)
             && MarksCreated(tx, step)
    ensures var r := step.action.record; var next := Outbox.NextTx(tx, step.action, step.ok);
            && CreatedOk(Outbox.WrittenEntries(entries, tx, step.action), next, WorkerIn(r), SessionIn(r))
            && next.settled == 0
  {
    hide EntryState, CreationOf, UpdateOf, EntryOf, Holds, Amended, Outbox.EntriesOk, Outbox.MarkedEntries;
    var r := step.action.record;
    Outbox.EntriesOkKeepsKind(entries, tx, tx, step.id);
    FlowRecords(tx, r, step.action.missing);
    RecordedCreation(entries, tx, step.id, r, WorkerIn(r), SessionIn(r));
  }

  lemma FlowRecords(tx: Outbox.Tx, r: Record, missing: MissingIntent)
    requires CreationFlow(tx, Outbox.MarkSucceeded(r, missing)) && tx.performed && AsksCleanup(r)
    ensures Records(r, WorkerIn(r), true, SessionIn(r))
  {
  }

  lemma JournalKeepsCovered(s: Store, step: Outbox.Step)
    requires Covered(s) && Possible(s, step)
    ensures Covered(AfterJournal(s, step))
  {
    hide Outbox.TxOk, Outbox.Enabled, Outbox.Next, CreationFlow, CreatedOk, WantedOf, Records, WorkersWith, Carrying,
         Outbox.WrittenEntries, Outbox.NextTx, WorkerIn, SessionIn, MarksCreated, Applies, AsksCleanup,
         Outbox.OwnRecords;
    var next := AfterJournal(s, step);
    var tx := Outbox.TxOf(s.outbox, step.id);
    Outbox.StepKeepsConsistent(s.outbox, step);
    Outbox.TxOkOwns(EntriesOf(s.outbox.field, step.id), tx, step.id);
    forall id | id in next.created ensures CoveredAt(next, id) {
      if id != step.id {
        Outbox.StepElsewhere(s.outbox, step, id, Some(Json.Text(id)));
        JournalElsewhere(s, step, id);
      } else {
        JournalOwn(s, step);
      }
    }
  }

  lemma JournalElsewhere(s: Store, step: Outbox.Step, id: EntryId)
    requires id in s.created && id != step.id && CoveredAt(s, id) && Possible(s, step)
    requires Outbox.TxOf(Outbox.Next(s.outbox, step), id) == Outbox.TxOf(s.outbox, id)
    requires EntriesOf(Outbox.Next(s.outbox, step).field, id) == EntriesOf(s.outbox.field, id)
    ensures id in AfterJournal(s, step).created && CoveredAt(AfterJournal(s, step), id)
  {
    hide Outbox.Next, CreatedOk, WantedOf, WorkersWith, Carrying, WorkerIn, SessionIn, Possible, MarksCreated;
    if Applies(Outbox.TxOf(s.outbox, step.id), step) {
      AppliedIsWanted(s.workers, step.action.result.record, s.created[id].0, s.created[id].1);
    }
  }

  lemma JournalOwn(s: Store, step: Outbox.Step)
    requires Possible(s, step)
    requires Outbox.TxOk(EntriesOf(s.outbox.field, step.id), Outbox.TxOf(s.outbox, step.id), step.id)
    requires step.id in s.created ==> CoveredAt(s, step.id)
    requires step.id in AfterJournal(s, step).created
    ensures CoveredAt(AfterJournal(s, step), step.id)
  {
    hide Outbox.TxOk, Outbox.Enabled, Outbox.Written, CreationFlow, CreatedOk, WantedOf, Records, WorkersWith, Carrying,
         Outbox.WrittenEntries, Outbox.NextTx, WorkerIn, SessionIn, MarksCreated, Applies, AsksCleanup;
    var tx, entries := Outbox.TxOf(s.outbox, step.id), EntriesOf(s.outbox.field, step.id);
    OwnView(s.outbox, step);
    if step.id in s.created {
      var w, session := s.created[step.id].0, s.created[step.id].1;
      CreatedKind(entries, tx, w, session);
      OwnStep(entries, tx, step, w, session);
      if Applies(tx, step) { AppliedResult(s.workers, tx, step, w, session); }
    } else {
      MarksKind(tx, step);
      NewCreation(entries, tx, step);
    }
  }

  lemma MarksKind(tx: Outbox.Tx, step: Outbox.Step)
    requires MarksCreated(tx, step)
    ensures tx.kind == CREATE_KIND && step.ok && step.action.MarkSucceeded?
  {
  }

  lemma CreatedKind(entries: seq<Item>, tx: Outbox.Tx, w: WorkerId, session: SessionId)
    requires CreatedOk(entries, tx, w, session)
    ensures tx.kind == CREATE_KIND && session != ""
  {
  }

  lemma AppliedResult(workers: WorkerMap, tx: Outbox.Tx, step: Outbox.Step, w: WorkerId, session: SessionId)
    requires Applies(tx, step)
    ensures session in WantedOf(workers, w) ==> session in WantedOf(WorkersWith(workers, step.action.result.record), w)
    ensures Records(step.action.result.record, w, true, session) ==>
              session in WantedOf(WorkersWith(workers, step.action.result.record), w)
  {
    hide WorkersWith, WantedOf;
    AppliedIsWanted(workers, step.action.result.record, w, session);
  }

  lemma OwnView(o: Outbox.System, step: Outbox.Step)
    requires Outbox.Enabled(EntriesOf(o.field, step.id), Outbox.TxOf(o, step.id), step.id, step.action)
    requires Outbox.TxOk(EntriesOf(o.field, step.id), Outbox.TxOf(o, step.id), step.id)
    ensures var tx, entries := Outbox.TxOf(o, step.id), EntriesOf(o.field, step.id);
            && Outbox.TxOf(Outbox.Next(o, step), step.id) == Outbox.NextTx(tx, step.action, step.ok)
            && EntriesOf(Outbox.Next(o, step).field, step.id) ==
               if step.ok then Outbox.WrittenEntries(entries, tx, step.action) else entries
  {
    hide Outbox.TxOk, Outbox.Enabled, Outbox.Written, Carrying, Outbox.WrittenEntries, Outbox.NextTx;
    var tx := Outbox.TxOf(o, step.id);
    Outbox.TxOkOwns(EntriesOf(o.field, step.id), tx, step.id);
    Outbox.WrittenView(o.field, tx, step.id, step.action, Some(Json.Text(step.id)));
  }

  // ----- Exactly which step leaves an applied session to its entry alone -----

  /** The write of a cleanup attempt replaces a record that wants a session the plan never saw. */
  ghost predicate Overwrites(s: Store, step: Step) {
    && step.Clean? && step.ok && step.worker in s.plan && step.worker in s.workers
    && exists id :: id in s.created && Forgotten(s, step.worker, id)
  }

  predicate Forgotten(s: Store, w: WorkerId, id: EntryId)
    requires id in s.created && w in s.plan
  {
    var session := s.created[id].1;
    && s.created[id].0 == w && Outbox.TxOf(s.outbox, id).settled > 0
    && session !in s.plan[w] && session !in s.verified
  }

  lemma CleanAt(s: Store, w: WorkerId, base: Option<Cleanup>, answers: nat -> Answers, id: EntryId)
    requires w in s.plan && w in s.workers && id in s.created && CoveredAt(s, id)
    ensures CoveredAt(AfterClean(s, w, base, answers, true), id) <==> !Forgotten(s, w, id)
  {
    hide Wanted, CleanedUp, CreatedOk, Carrying, DisposalOf, Offer, Confirmed;
    var session := s.created[id].1;
    var cleaned := CleanedUp(base, s.plan[w], answers);
    CreatedKind(EntriesOf(s.outbox.field, id), Outbox.TxOf(s.outbox, id), s.created[id].0, session);
    CleanupIsWritten(s.workers[w], w, cleaned);
    WantedAfterCleanup(base, s.plan[w], answers, session);
    VerifiedMeansGone(s.plan[w], answers, session);
    ConfirmedIsAttempted(s.plan[w], answers, session);
  }

  lemma ConfirmedIsAttempted(ids: seq<SessionId>, answers: nat -> Answers, s: SessionId)
    ensures Confirmed(ids, answers, s) ==> s in ids
  {
  }

  lemma FailedCleanAt(s: Store, w: WorkerId, base: Option<Cleanup>, answers: nat -> Answers, ok: bool, id: EntryId)
    requires w in s.plan && id in s.created && CoveredAt(s, id) && (!ok || w !in s.workers)
    ensures CoveredAt(AfterClean(s, w, base, answers, ok), id)
  {
    hide CleanedUp, CreatedOk, Carrying, DisposalOf, Offer, Wanted;
  }

  lemma OfferedAt(s: Store, t: Transition, id: EntryId)
    requires id in s.created && CoveredAt(s, id)
    ensures CoveredAt(Next(s, Offered(t)), id)
  {
    hide CreatedOk, Carrying, Offer, Wanted, LeavesCleanup;
    if LeavesCleanup(t) && t.workerId in s.workers { OtherTransitionsKeepCleanup(s.workers[t.workerId], t); }
  }

  lemma PlanningAt(s: Store, step: Step, id: EntryId)
    requires id in s.created && CoveredAt(s, id) && (step.Plan? || step.AbandonPlan?)
    ensures id in Next(s, step).created && CoveredAt(Next(s, step), id)
  {
    hide CreatedOk, Carrying, Wanted, CleanupPlan;
  }

  /** Of all steps exactly an overwriting cleanup write leaves an applied, unverified session without a record that
      wants it; from then on only its journal entry, if it is still there, names it. */
  lemma OnlyOverwritesUncover(s: Store, step: Step)
    requires Covered(s)
    ensures Covered(Next(s, step)) <==> !Overwrites(s, step)
  {
    hide CoveredAt, Forgotten, Carrying, AfterClean, AfterJournal, LeavesCleanup, Possible, CleanupPlan, Offer,
         Outbox.TxOk;
    match step {
      case Journal(j) => if Possible(s, j) { JournalKeepsCovered(s, j); }
      case Offered(t) =>
        forall id | id in s.created ensures CoveredAt(Next(s, step), id) { OfferedAt(s, t, id); }
      case Plan(_) =>
        forall id | id in s.created ensures CoveredAt(Next(s, step), id) { PlanningAt(s, step, id); }
      case AbandonPlan =>
        forall id | id in s.created ensures CoveredAt(Next(s, step), id) { PlanningAt(s, step, id); }
      case Clean(w, base, answers, ok) => if w in s.plan { CleanCovers(s, w, base, answers, ok); }
    }
  }

  lemma CleanCovers(s: Store, w: WorkerId, base: Option<Cleanup>, answers: nat -> Answers, ok: bool)
    requires Covered(s) && w in s.plan
    ensures Covered(AfterClean(s, w, base, answers, ok)) <==> !Overwrites(s, Clean(w, base, answers, ok))
  {
    hide CoveredAt, Forgotten, Carrying, Outbox.TxOk, Offer, CleanedUp, DisposalOf;
    var next := AfterClean(s, w, base, answers, ok);
    assert next.created == s.created && next.outbox == s.outbox;
    forall id | id in s.created
      ensures CoveredAt(next, id) <==> !(ok && w in s.workers && Forgotten(s, w, id))
    {
      if ok && w in s.workers { CleanAt(s, w, base, answers, id); } else { FailedCleanAt(s, w, base, answers, ok, id); }
    }
  }

  function RunOf(s: Store, steps: seq<Step>): Store
    decreases |steps|
  {
    if steps == [] then s else RunOf(Next(s, steps[0]), steps[1..])
  }

  ghost predicate NeverOverwrites(s: Store, steps: seq<Step>)
    decreases |steps|
  {
    steps == [] || (!Overwrites(s, steps[0]) && NeverOverwrites(Next(s, steps[0]), steps[1..]))
  }

  lemma {:induction false} RunCovers(s: Store, steps: seq<Step>)
    requires Covered(s) && NeverOverwrites(s, steps)
    ensures Covered(RunOf(s, steps))
    decreases |steps|
  {
    hide Covered, Overwrites, Next;
    if steps != [] {
      OnlyOverwritesUncover(s, steps[0]);
      RunCovers(Next(s, steps[0]), steps[1..]);
    }
  }

  /** A run with any journal, any workers and nothing in progress. */
  function Begin(f: Field, workers: WorkerMap): Store {
    Store(Outbox.Idle(f), workers, map[], {}, map[])
  }

  lemma BeginIsCovered(f: Field, workers: WorkerMap)
    ensures Covered(Begin(f, workers))
  {
    Outbox.IdleIsConsistent(f);
  }

  lemma CoveredIsRecoverable(s: Store, id: EntryId)
    requires Covered(s) && id in s.created
    ensures s.created[id].1 in s.verified || Recoverable(s.workers, ItemsIn(s), s.created[id].0, s.created[id].1)
  {
    hide Creates, Requested, WantedOf, Carrying, Outbox.TxOk;
    var entries := EntriesOf(s.outbox.field, id);
    assert CoveredAt(s, id);
    if Outbox.TxOf(s.outbox, id).settled == 0 {
      Outbox.CarryingMembers(ItemsIn(s), Some(Json.Text(id)));
      assert entries[0] in entries;
      assert Dict(entries[0].entry) in ItemsIn(s);
    }
  }

  /** In every run that never overwrites, each session created for cleanup is recoverable from its persisted success
      until its deletion is verified: through applying, finalizing, partly failed cleanups, failed writes and
      crashes. */
  lemma SessionsAreConserved(f: Field, workers: WorkerMap, steps: seq<Step>, id: EntryId)
    requires NeverOverwrites(Begin(f, workers), steps)
    ensures var s := RunOf(Begin(f, workers), steps);
            id in s.created ==>
              s.created[id].1 in s.verified || Recoverable(s.workers, ItemsIn(s), s.created[id].0, s.created[id].1)
  {
    hide Covered, NeverOverwrites, Recoverable, Next;
    BeginIsCovered(f, workers);
    RunCovers(Begin(f, workers), steps);
    var s := RunOf(Begin(f, workers), steps);
    if id in s.created { CoveredIsRecoverable(s, id); }
  }

  // ----- Working off a plan -----

  lemma {:induction false} RunAppend(s: Store, steps: seq<Step>, step: Step)
    ensures RunOf(s, steps + [step]) == Next(RunOf(s, steps), step)
    decreases |steps|
  {
    hide Next;
    if steps == [] {
      assert ([] + [step])[1..] == [];
      assert RunOf(Next(s, step), []) == Next(s, step);
    } else {
      assert (steps + [step])[0] == steps[0] && (steps + [step])[1..] == steps[1..] + [step];
      RunAppend(Next(s, steps[0]), steps[1..], step);
    }
  }

  /** Every session planned for a worker that is done and still exists was verified. */
  ghost predicate WorkedOff(start: Store, s: Store) {
    forall w, session :: w in start.plan && w !in s.plan && w in start.workers && session in start.plan[w] ==>
      session in s.verified
  }

  /** s is start with part of the plan worked off. */
  ghost predicate Progress(start: Store, s: Store) {
    && s.workers.Keys == start.workers.Keys && start.verified <= s.verified
    && (forall w :: w in s.plan ==> w in start.plan && s.plan[w] == start.plan[w])
  }

  lemma CleanProgress(start: Store, s: Store, w: WorkerId, base: Option<Cleanup>, answers: nat -> Answers)
    requires Progress(start, s) && w in s.plan
    ensures var next := AfterClean(s, w, base, answers, true);
            && Progress(start, next) && next.plan == s.plan - {w}
            && (WorkedOff(start, s) && (w in s.workers ==> DisposalOf(s.plan[w], answers).errors == []) ==>
                  WorkedOff(start, next))
  {
    hide DisposalOf, CleanedUp, Offer;
    var next := AfterClean(s, w, base, answers, true);
    if w in s.workers && DisposalOf(s.plan[w], answers).errors == [] {
      forall session | session in s.plan[w] ensures session in next.verified {
        VerifiedMeansGone(s.plan[w], answers, session);
      }
    }
  }

  /** The cleanup of the workers in order, from their own records; the first write that fails ends it. */
  function CleanSteps(s: Store, order: seq<WorkerId>, answers: WorkerId -> nat -> Answers, writes: nat -> bool,
                      i: nat): seq<Step>
    decreases |order|
  {
    if order == [] then []
    else
      var w := order[0];
      var step := Clean(w, if w in s.workers then s.workers[w].cleanup else None, answers(w), writes(i));
      [step] + if w in s.workers && !writes(i) then []
               else CleanSteps(Next(s, step), order[1..], answers, writes, i + 1)
  }

  lemma CleanStepsGoOn(s: Store, order: seq<WorkerId>, answers: WorkerId -> nat -> Answers, writes: nat -> bool,
                       i: nat)
    requires order != [] && order[0] in s.plan
    ensures var w := order[0]; var base := if w in s.workers then s.workers[w].cleanup else None;
            var next := AfterClean(s, w, base, answers(w), writes(i));
            RunOf(s, CleanSteps(s, order, answers, writes, i)) ==
            if w in s.workers && !writes(i) then next
            else RunOf(next, CleanSteps(next, order[1..], answers, writes, i + 1))
  {
    hide AfterClean;
    var w := order[0];
    var step := Clean(w, if w in s.workers then s.workers[w].cleanup else None, answers(w), writes(i));
    var all := CleanSteps(s, order, answers, writes, i);
    assert all[0] == step && Next(s, step) == AfterClean(s, w, step.base, answers(w), writes(i));
    assert RunOf(Next(s, step), []) == Next(s, step);
  }

  /** Cleans worker by worker, each outcome persisted before the next worker; a failed write (ok is false) ends the
      cleanup. Without an error every planned session is verified as deleted. */
  method CleanupWorkers(start: Store, order: seq<WorkerId>, answers: WorkerId -> nat -> Answers, writes: nat -> bool)
      returns (s: Store, error: Option<string>, ok: bool)
    requires NoDuplicates(order) && forall w :: w in order <==> w in start.plan
    ensures s == RunOf(start, CleanSteps(start, order, answers, writes, 0)) && s.plan == map[]
    ensures ok && error.None? ==>
              forall w, session :: w in start.plan && w in start.workers && session in start.plan[w] ==>
                session in s.verified
  {
    hide RunOf, CleanedUp, DisposalOf, Offer, Progress, WorkedOff, CleanSteps;
    s, error, ok := start, None, true;
    StartProgress(start);
    ghost var end := RunOf(start, CleanSteps(start, order, answers, writes, 0));
    assert order[0..] == order;
    for i := 0 to |order|
      invariant RunOf(s, CleanSteps(s, order[i..], answers, writes, i)) == end
      invariant Progress(start, s) && (error.None? ==> WorkedOff(start, s))
      invariant forall w :: w in s.plan <==> w in order[i..]
    {
      var w := order[i];
      assert w in order[i..] && order[i..][0] == w && order[i..][1..] == order[i + 1..];
      var base := if w in s.workers then s.workers[w].cleanup else None;
      CleanStepsGoOn(s, order[i..], answers, writes, i);
      CleanProgress(start, s, w, base, answers(w));
      if w in s.workers {
        var cleanup, deleted, failure := CleanupCreatedWorkerSessions(s.workers[w], s.plan[w], answers(w));
        if !writes(i) {
          s := s.(verified := s.verified + Elements(deleted), plan := map[]);
          return s, failure, false;
        }
        if error.None? { error := failure; }
        s := s.(verified := s.verified + Elements(deleted), plan := s.plan - {w},
                workers := s.workers[w := Offer(s.workers[w], Transition(w, CleanupUpdated(Some(cleanup)), None))]);
      } else {
        s := s.(plan := s.plan - {w});
      }
      assert order[i..] == [w] + order[i + 1..];
      assert w !in order[i + 1..];
    }
    NothingLeft(s, answers, writes, |order|);
    assert order[|order|..] == [];
    NothingPlanned(s.plan, order[|order|..]);
    AllWorkedOff(start, s);
  }

  lemma NothingLeft(s: Store, answers: WorkerId -> nat -> Answers, writes: nat -> bool, i: nat)
    ensures RunOf(s, CleanSteps(s, [], answers, writes, i)) == s
  {
  }

  lemma NothingPlanned(plan: SessionMap, rest: seq<WorkerId>)
    requires rest == [] && forall w :: w in plan <==> w in rest
    ensures plan == map[]
  {
    forall w ensures w !in plan { assert w in plan <==> w in rest; }
  }

  lemma AllWorkedOff(start: Store, s: Store)
    requires s.plan == map[]
    ensures WorkedOff(start, s) ==>
              forall w, session :: w in start.plan && w in start.workers && session in start.plan[w] ==>
                session in s.verified
  {
  }

  lemma StartProgress(start: Store)
    ensures Progress(start, start) && WorkedOff(start, start)
  {
  }

  // ----- The serial flow never overwrites -----

  /** No session is applied to a worker whose cleanup is planned and still to be done. */
  predicate Serial(s: Store, step: Step) {
    step.Journal? && Applies(Outbox.TxOf(s.outbox, step.step.id), step.step) ==>
      WorkerIn(step.step.action.result.record) !in s.plan
  }

  ghost predicate SerialRun(s: Store, steps: seq<Step>)
    decreases |steps|
  {
    steps == [] || (Serial(s, steps[0]) && SerialRun(Next(s, steps[0]), steps[1..]))
  }

  /** A pending plan attempts every session that its workers' records want. */
  ghost predicate PlanCovers(s: Store) {
    forall w, session :: w in s.plan && session in WantedOf(s.workers, w) ==> session in s.plan[w]
  }

  lemma PlannedAll(remembered: SessionMap, workers: WorkerMap, items: seq<Item>, w: WorkerId, session: SessionId)
    requires session in WantedOf(workers, w)
    ensures Lists(CleanupPlan(remembered, workers, items), w, session)
  {
    hide CleanupPlan, Lists, InJournal, WantedOf;
    PlanExactly(remembered, workers, items, w, session);
  }

  lemma SerialJournal(s: Store, step: Outbox.Step)
    requires PlanCovers(s) && Serial(s, Journal(step))
    ensures PlanCovers(AfterJournal(s, step))
  {
    hide Wanted, SessionRemembered, AsksCleanup, WorkerIn, SessionIn, Applies, MarksCreated;
    hide Outbox.Next, Outbox.TxOf;
  }

  lemma SerialOffered(s: Store, t: Transition)
    requires PlanCovers(s)
    ensures PlanCovers(Next(s, Offered(t)))
  {
    hide Wanted, Offer, LeavesCleanup;
    if LeavesCleanup(t) && t.workerId in s.workers { OtherTransitionsKeepCleanup(s.workers[t.workerId], t); }
  }

  lemma SerialKeepsPlan(s: Store, step: Step)
    requires PlanCovers(s) && Serial(s, step)
    ensures PlanCovers(Next(s, step))
  {
    hide WantedOf, LeavesCleanup, Offer, CleanedUp, DisposalOf, CleanupPlan, Possible, AfterJournal;
    match step {
      case Journal(j) => SerialJournal(s, j);
      case Offered(t) => SerialOffered(s, t);
      case Plan(remembered) =>
        forall w, session | session in WantedOf(s.workers, w)
          ensures Lists(CleanupPlan(remembered, s.workers, ItemsIn(s)), w, session)
        {
          PlannedAll(remembered, s.workers, ItemsIn(s), w, session);
        }
      case Clean(w, base, answers, ok) => if w in s.plan { SerialClean(s, w, base, answers, ok); }
      case AbandonPlan =>
    }
  }

  lemma SerialClean(s: Store, w: WorkerId, base: Option<Cleanup>, answers: nat -> Answers, ok: bool)
    requires PlanCovers(s) && w in s.plan
    ensures PlanCovers(AfterClean(s, w, base, answers, ok))
  {
    hide Wanted, Offer, CleanedUp, DisposalOf;
  }

  lemma CoveredPlanNeverOverwrites(s: Store, step: Step)
    requires Covered(s) && PlanCovers(s)
    ensures !Overwrites(s, step)
  {
    hide WantedOf, Carrying, CreatedOk;
  }

  lemma {:induction false} SerialNeverOverwrites(s: Store, steps: seq<Step>)
    requires Covered(s) && PlanCovers(s) && SerialRun(s, steps)
    ensures NeverOverwrites(s, steps)
    decreases |steps|
  {
    hide Covered, PlanCovers, Serial, Overwrites, Next;
    if steps != [] {
      CoveredPlanNeverOverwrites(s, steps[0]);
      OnlyOverwritesUncover(s, steps[0]);
      SerialKeepsPlan(s, steps[0]);
      SerialNeverOverwrites(Next(s, steps[0]), steps[1..]);
    }
  }

  /** Steps in the order of starts: sessions are applied while workers execute, then one plan is made and worked off,
      and then the start ends or dies. */
  predicate InPhases(steps: seq<Step>, cleaning: bool)
    decreases |steps|
  {
    if steps == [] then true
    else match steps[0]
      case Plan(_) => InPhases(steps[1..], true)
      case AbandonPlan => InPhases(steps[1..], false)
      case Journal(j) => !(cleaning && j.action.Settle?) && InPhases(steps[1..], cleaning)
      case Offered(_) | Clean(_, _, _, _) => InPhases(steps[1..], cleaning)
  }

  /** Whether the steps leave a start cleaning up. */
  function StillCleaning(steps: seq<Step>, cleaning: bool): bool
    decreases |steps|
  {
    if steps == [] then cleaning
    else StillCleaning(steps[1..], if steps[0].Plan? then true else if steps[0].AbandonPlan? then false else cleaning)
  }

  lemma {:induction false} PhasesConcat(a: seq<Step>, b: seq<Step>, cleaning: bool)
    ensures InPhases(a + b, cleaning) <==> InPhases(a, cleaning) && InPhases(b, StillCleaning(a, cleaning))
    ensures StillCleaning(a + b, cleaning) == StillCleaning(b, StillCleaning(a, cleaning))
    decreases |a|
  {
    if a == [] {
      assert a + b == b;
    } else {
      assert (a + b)[0] == a[0] && (a + b)[1..] == a[1..] + b;
      PhasesConcat(a[1..], b, if a[0].Plan? then true else if a[0].AbandonPlan? then false else cleaning);
    }
  }

  lemma PhaseStepIsSerial(s: Store, steps: seq<Step>, cleaning: bool)
    requires steps != [] && InPhases(steps, cleaning) && (!cleaning ==> s.plan == map[])
    ensures Serial(s, steps[0])
    ensures var next := Next(s, steps[0]);
            var goesOn := if steps[0].Plan? then true else if steps[0].AbandonPlan? then false else cleaning;
            InPhases(steps[1..], goesOn) && (!goesOn ==> next.plan == map[])
  {
    hide Possible, LeavesCleanup, Offer, CleanedUp, DisposalOf, CleanupPlan, AfterJournal;
    if steps[0].Journal? { JournalKeepsPlan(s, steps[0].step); }
  }

  lemma JournalKeepsPlan(s: Store, step: Outbox.Step)
    ensures AfterJournal(s, step).plan == s.plan
  {
    hide Outbox.Next, WorkersWith, Applies, MarksCreated;
  }

  lemma {:induction false} PhasesAreSerial(s: Store, steps: seq<Step>, cleaning: bool)
    requires InPhases(steps, cleaning) && (!cleaning ==> s.plan == map[])
    ensures SerialRun(s, steps)
    decreases |steps|
  {
    hide InPhases, Serial, Next;
    if steps != [] {
      PhaseStepIsSerial(s, steps, cleaning);
      PhasesAreSerial(Next(s, steps[0]), steps[1..],
                      if steps[0].Plan? then true else if steps[0].AbandonPlan? then false else cleaning);
    }
  }

  /** Any number of starts one after another, each executing before it cleans up, conserve every session. */
  lemma StartsInSequenceConserve(f: Field, workers: WorkerMap, steps: seq<Step>, id: EntryId)
    requires InPhases(steps, false)
    ensures var s := RunOf(Begin(f, workers), steps);
            id in s.created ==>
              s.created[id].1 in s.verified || Recoverable(s.workers, ItemsIn(s), s.created[id].0, s.created[id].1)
  {
    hide Recoverable, SerialRun, RunOf, InPhases;
    PhasesAreSerial(Begin(f, workers), steps, false);
    SerialFlowConserves(f, workers, steps, id);
  }

  /** A flow that applies no session for a worker whose cleanup is planned conserves every session. */
  lemma SerialFlowConserves(f: Field, workers: WorkerMap, steps: seq<Step>, id: EntryId)
    requires SerialRun(Begin(f, workers), steps)
    ensures var s := RunOf(Begin(f, workers), steps);
            id in s.created ==>
              s.created[id].1 in s.verified || Recoverable(s.workers, ItemsIn(s), s.created[id].0, s.created[id].1)
  {
    hide Covered, NeverOverwrites, Recoverable, Next, SerialRun, RunOf;
    BeginIsCovered(f, workers);
    SerialNeverOverwrites(Begin(f, workers), steps);
    SessionsAreConserved(f, workers, steps, id);
  }
}
