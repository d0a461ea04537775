/** One leased cleanup, ordinary updates of other processes, and a crash anywhere, in every interleaving, on a record
    that is stored under its own name. */
module CleanupFence {
  import opened Common
  import opened RunStore
  import Json

  /** Where the cleanup process stands; the lease admits one such process at a time. */
  datatype Pc =
    | NotStarted
    | Planned(plan: Content)
    | Removing(plan: Content, baseline: Content)
    | AuditWritten(plan: Content, audited: Content, record: AuditRecord)
    | Deleted(plan: Content)
    | Stopped

  /** sincePlan holds the contents that ordinary updates committed after the plan was made. */
  datatype State = State(stored: Option<Content>, pc: Pc, sincePlan: seq<Content>)

  datatype Step =
    | OrdinaryUpdate(mutate: Content -> Mutation)
    | Load(force: bool)
    | Begin(record: AuditRecord)
    | Finish(record: AuditRecord)
    | Delete
    | Stop

  function AfterOrdinary(s: State, mutate: Content -> Mutation): State {
    var u := Updated(s.stored, mutate, false);
    if u.result.Committed? then s.(stored := u.stored, sincePlan := s.sincePlan + [u.result.run]) else s
  }

  function AfterLoad(s: State, force: bool): State {
    if s.stored.None? || (Fenced(s.stored.value) && !force) then s.(pc := Stopped)
    else s.(pc := Planned(s.stored.value), sincePlan := [])
  }

  function AfterBegin(s: State, plan: Content, record: AuditRecord): State {
    var u := Begun(s.stored, plan, record);
    if u.result.Committed? then s.(stored := u.stored, pc := Removing(plan, u.result.run)) else s.(pc := Stopped)
  }

  function AfterFinish(s: State, plan: Content, baseline: Content, record: AuditRecord): State {
    var f := AuditFinished(s.stored, baseline, record);
    if f.result.Committed? then s.(stored := f.stored, pc := AuditWritten(plan, f.result.run, f.record))
    else s.(pc := Stopped)
  }

  /** The record is deleted only when the audit shows no error. */
  function AfterDelete(s: State, plan: Content, audited: Content, record: AuditRecord): State {
    if record.errors != [] then s.(pc := Stopped)
    else
      var d := AuditDeleted(s.stored, audited, record);
      s.(stored := d.stored, pc := if d.deleted then Deleted(plan) else Stopped)
  }

  function Next(s: State, step: Step): State {
    match step
    case OrdinaryUpdate(mutate) => AfterOrdinary(s, mutate)
    case Load(force) => if s.pc.NotStarted? || s.pc.Stopped? then AfterLoad(s, force) else s
    case Begin(record) => if s.pc.Planned? then AfterBegin(s, s.pc.plan, record) else s
    case Finish(record) =>
      if s.pc.Removing? && record.status != InProgress then AfterFinish(s, s.pc.plan, s.pc.baseline, record) else s
    case Delete => if s.pc.AuditWritten? then AfterDelete(s, s.pc.plan, s.pc.audited, s.pc.record) else s
    case Stop => if s.pc.NotStarted? || s.pc.Deleted? then s else s.(pc := Stopped)
  }

  function RunOf(s: State, steps: seq<Step>): State
    decreases |steps|
  {
    if steps == [] then s else RunOf(Next(s, steps[0]), steps[1..])
  }

  function StartOf(c: Content): State {
    State(Some(c), NotStarted, [])
  }

  // ----- The fence -----

  /** While resources are being removed the record is the audited plan, and it is fenced. */
  predicate Guarded(s: State) {
    match s.pc
    case Removing(plan, baseline) => s.stored == Some(baseline) && Fenced(baseline) && baseline.rest == plan.rest
    case AuditWritten(plan, audited, record) =>
      audited.cleanup == Some(record) && !Fenced(audited) && audited.rest == plan.rest
    case Deleted(_) => s.stored == None
    case _ => true
  }

  lemma StepKeepsGuarded(s: State, step: Step)
    requires Guarded(s)
    ensures Guarded(Next(s, step))
    ensures s.pc.Removing? && step.OrdinaryUpdate? ==> Next(s, step) == s
  {
  }

  lemma {:induction false} RunKeepsGuarded(s: State, steps: seq<Step>)
    requires Guarded(s)
    ensures Guarded(RunOf(s, steps))
    decreases |steps|
  {
    hide Next, Guarded;
    if steps != [] {
      StepKeepsGuarded(s, steps[0]);
      RunKeepsGuarded(Next(s, steps[0]), steps[1..]);
    }
  }

  /** No ordinary update commits between the begin and the finish of the audit, in any interleaving. */
  lemma NothingCommitsWhileRemoving(c: Content, steps: seq<Step>, mutate: Content -> Mutation)
    requires RunOf(StartOf(c), steps).pc.Removing?
    ensures Next(RunOf(StartOf(c), steps), OrdinaryUpdate(mutate)) == RunOf(StartOf(c), steps)
  {
    hide Next;
    RunKeepsGuarded(StartOf(c), steps);
    StepKeepsGuarded(RunOf(StartOf(c), steps), OrdinaryUpdate(mutate));
  }

  /** So finishing the audit never meets a conflict: it attaches exactly the record it was given. */
  lemma FinishNeverConflicts(c: Content, steps: seq<Step>, record: AuditRecord)
    requires RunOf(StartOf(c), steps).pc.Removing? && record.status != InProgress
    ensures var s := RunOf(StartOf(c), steps); var next := Next(s, Finish(record));
            && next.pc.AuditWritten? && next.pc.record == record
            && next.stored == Some(s.stored.value.(cleanup := Some(record)))
  {
    RunKeepsGuarded(StartOf(c), steps);
  }

  lemma {:induction false} CrashStaysFenced(s: State, steps: seq<Step>)
    requires s.pc.Stopped? && s.stored.Some? && Fenced(s.stored.value)
    requires forall step :: step in steps ==> !(step.Load? && step.force)
    ensures RunOf(s, steps) == s
    decreases |steps|
  {
    if steps != [] {
      assert steps[0] in steps;
      CrashStaysFenced(s, steps[1..]);
    }
  }

  /** A cleanup that dies while removing leaves the record fenced: nothing commits until a cleanup is forced. */
  lemma CrashWhileRemovingFences(c: Content, before: seq<Step>, after: seq<Step>)
    requires RunOf(StartOf(c), before).pc.Removing? && forall step :: step in after ==> !(step.Load? && step.force)
    ensures var s := Next(RunOf(StartOf(c), before), Stop);
            s.stored.Some? && Fenced(s.stored.value) && RunOf(s, after).stored == s.stored
  {
    RunKeepsGuarded(StartOf(c), before);
    CrashStaysFenced(Next(RunOf(StartOf(c), before), Stop), after);
  }

  // ----- What deletion means -----

  /** Every committed ordinary update raises the stamp that the record carries, as a clock that advances would. */
  ghost predicate Stamps(stamp: Json.Value -> int, step: Step) {
    step.OrdinaryUpdate? ==>
      forall c: Content :: step.mutate(c).Mutated? ==> stamp(step.mutate(c).run.rest) > stamp(c.rest)
  }

  predicate Ahead(stamp: Json.Value -> int, s: State, seen: Content) {
    && s.stored.Some?
    && if s.sincePlan == [] then s.stored == Some(seen) else stamp(s.stored.value.rest) > stamp(seen.rest)
  }

  /** Compare-and-set succeeds only while nothing has been committed since the content it expects. */
  predicate Traced(stamp: Json.Value -> int, s: State) {
    match s.pc
    case Planned(plan) => Ahead(stamp, s, plan)
    case Removing(_, baseline) => s.sincePlan == [] && s.stored == Some(baseline)
    case AuditWritten(_, audited, _) => Ahead(stamp, s, audited)
    case Deleted(_) => s.sincePlan == [] && s.stored.None?
    case _ => true
  }

  lemma StepKeepsTraced(stamp: Json.Value -> int, s: State, step: Step)
    requires Guarded(s) && Traced(stamp, s) && Stamps(stamp, step)
    ensures Traced(stamp, Next(s, step))
  {
  }

  lemma {:induction false} RunKeepsTraced(stamp: Json.Value -> int, s: State, steps: seq<Step>)
    requires Guarded(s) && Traced(stamp, s) && forall step :: step in steps ==> Stamps(stamp, step)
    ensures Traced(stamp, RunOf(s, steps))
    decreases |steps|
  {
    hide Next, Guarded, Traced, Stamps;
    if steps != [] {
      assert steps[0] in steps;
      StepKeepsGuarded(s, steps[0]);
      StepKeepsTraced(stamp, s, steps[0]);
      RunKeepsTraced(stamp, Next(s, steps[0]), steps[1..]);
    }
  }

  /** If every update raises the stamp, a deleted record had no ordinary update committed after its plan was made. */
  lemma DeletedRecordsWereUpToDate(stamp: Json.Value -> int, c: Content, steps: seq<Step>)
    requires forall step :: step in steps ==> Stamps(stamp, step)
    ensures RunOf(StartOf(c), steps).pc.Deleted? ==> RunOf(StartOf(c), steps).sincePlan == []
  {
    hide Next, Stamps;
    RunKeepsTraced(stamp, StartOf(c), steps);
  }

  // ----- Exactly when a cleanup deletes -----

  type Updates = seq<Content -> Mutation>

  /** The content after ordinary updates, each of which commits, raises, or is fenced off. */
  function Folded(c: Content, us: Updates): Content
    decreases |us|
  {
    if us == [] then c
    else
      var r := Updated(Some(c), us[0], false).result;
      Folded(if r.Committed? then r.run else c, us[1..])
  }

  function AfterUpdates(s: State, us: Updates): State
    decreases |us|
  {
    if us == [] then s else AfterUpdates(Next(s, OrdinaryUpdate(us[0])), us[1..])
  }

  lemma {:induction false} UpdatesFold(s: State, us: Updates)
    ensures AfterUpdates(s, us).pc == s.pc
    ensures s.stored.Some? ==> AfterUpdates(s, us).stored == Some(Folded(s.stored.value, us))
    ensures s.stored.None? ==> AfterUpdates(s, us) == s
    ensures s.stored.Some? && Fenced(s.stored.value) ==> AfterUpdates(s, us) == s
    decreases |us|
  {
    if us != [] { UpdatesFold(Next(s, OrdinaryUpdate(us[0])), us[1..]); }
  }

  /** A whole cleanup, with ordinary updates before the plan, before the begin, during the removal, after the finish. */
  function WholeCleanup(c: Content, us: (Updates, Updates, Updates, Updates), force: bool, begin: AuditRecord,
                        finish: AuditRecord): State {
    var planned := Next(AfterUpdates(StartOf(c), us.0), Load(force));
    var begun := Next(AfterUpdates(planned, us.1), Begin(begin));
    var finished := Next(AfterUpdates(begun, us.2), Finish(finish));
    Next(AfterUpdates(finished, us.3), Delete)
  }

  lemma PlanAndBegin(c: Content, us: (Updates, Updates, Updates, Updates), force: bool, begin: AuditRecord)
    requires Fenced(Folded(c, us.0)) ==> force
    ensures var plan := Folded(c, us.0);
            var begun := Next(AfterUpdates(Next(AfterUpdates(StartOf(c), us.0), Load(force)), us.1), Begin(begin));
            if Folded(plan, us.1) == plan
            then begun.pc.Removing? && begun.pc.plan == plan && Guarded(begun)
            else begun.pc.Stopped?
  {
    UpdatesFold(StartOf(c), us.0);
    UpdatesFold(Next(AfterUpdates(StartOf(c), us.0), Load(force)), us.1);
  }

  lemma FinishAndDelete(begun: State, us: Updates, last: Updates, finish: AuditRecord)
    requires begun.pc.Removing? && Guarded(begun) && finish.status != InProgress
    ensures var audited := begun.stored.value.(cleanup := Some(finish));
            var end := Next(AfterUpdates(Next(AfterUpdates(begun, us), Finish(finish)), last), Delete);
            end.pc.Deleted? <==> finish.errors == [] && Folded(audited, last) == audited
  {
    UpdatesFold(begun, us);
    UpdatesFold(Next(AfterUpdates(begun, us), Finish(finish)), last);
  }

  lemma StoppedNeverDeletes(s: State, us: Updates, last: Updates, finish: AuditRecord)
    requires s.pc.Stopped?
    ensures !Next(AfterUpdates(Next(AfterUpdates(s, us), Finish(finish)), last), Delete).pc.Deleted?
  {
    UpdatesFold(s, us);
    UpdatesFold(Next(AfterUpdates(s, us), Finish(finish)), last);
  }

  /** The record is deleted exactly when removal reported no error, the updates between plan and begin together left the
      planned content, and those after the finish left the audited content; updates during the removal never matter. */
  lemma DeletesIff(c: Content, us: (Updates, Updates, Updates, Updates), force: bool, begin: AuditRecord,
                   finish: AuditRecord)
    requires finish.status != InProgress && (Fenced(Folded(c, us.0)) ==> force)
    ensures var plan := Folded(c, us.0); var audited := plan.(cleanup := Some(finish));
            WholeCleanup(c, us, force, begin, finish).pc.Deleted? <==>
            Folded(plan, us.1) == plan && finish.errors == [] && Folded(audited, us.3) == audited
  {
    hide Next, Guarded, Folded, AfterUpdates;
    PlanAndBegin(c, us, force, begin);
    var begun := Next(AfterUpdates(Next(AfterUpdates(StartOf(c), us.0), Load(force)), us.1), Begin(begin));
    if begun.pc.Removing? {
      RemovingStores(begun);
      FinishAndDelete(begun, us.2, us.3, finish);
    } else {
      StoppedNeverDeletes(begun, us.2, us.3, finish);
    }
  }

  lemma RemovingStores(s: State)
    requires s.pc.Removing? && Guarded(s)
    ensures s.stored.Some? && s.stored.value.rest == s.pc.plan.rest
  {
  }

  /** Some update commits when they are offered in order. */
  predicate SomeCommits(c: Content, us: Updates)
    decreases |us|
  {
    if us == [] then false
    else
      var r := Updated(Some(c), us[0], false).result;
      r.Committed? || SomeCommits(c, us[1..])
  }

  lemma {:induction false} UpdatesSince(s: State, us: Updates)
    requires s.stored.Some?
    ensures AfterUpdates(s, us).sincePlan == [] <==> s.sincePlan == [] && !SomeCommits(s.stored.value, us)
    ensures s.sincePlan != [] ==> AfterUpdates(s, us).sincePlan != []
    decreases |us|
  {
    if us != [] { UpdatesSince(Next(s, OrdinaryUpdate(us[0])), us[1..]); }
  }

  lemma BeginSince(c: Content, us: (Updates, Updates, Updates, Updates), force: bool, begin: AuditRecord)
    requires (Fenced(Folded(c, us.0)) ==> force) && Folded(Folded(c, us.0), us.1) == Folded(c, us.0)
    ensures var begun := Next(AfterUpdates(Next(AfterUpdates(StartOf(c), us.0), Load(force)), us.1), Begin(begin));
            begun.sincePlan == [] <==> !SomeCommits(Folded(c, us.0), us.1)
  {
    UpdatesFold(StartOf(c), us.0);
    var planned := Next(AfterUpdates(StartOf(c), us.0), Load(force));
    UpdatesFold(planned, us.1);
    UpdatesSince(planned, us.1);
  }

  lemma EndSince(begun: State, us: Updates, last: Updates, finish: AuditRecord)
    requires begun.pc.Removing? && Guarded(begun) && finish.status != InProgress
    ensures var audited := begun.stored.value.(cleanup := Some(finish));
            var end := Next(AfterUpdates(Next(AfterUpdates(begun, us), Finish(finish)), last), Delete);
            end.sincePlan == [] <==> begun.sincePlan == [] && !SomeCommits(audited, last)
  {
    UpdatesFold(begun, us);
    var finished := Next(AfterUpdates(begun, us), Finish(finish));
    UpdatesFold(finished, last);
    UpdatesSince(finished, last);
  }

  /** A record is deleted together with an update that committed after its plan exactly when it is deleted at all and an
      update between plan and begin, or after the finish, commits: only contents are compared, not updates. */
  lemma LateUpdateIsDeletedIff(c: Content, us: (Updates, Updates, Updates, Updates), force: bool, begin: AuditRecord,
                               finish: AuditRecord)
    requires finish.status != InProgress && (Fenced(Folded(c, us.0)) ==> force)
    ensures var plan := Folded(c, us.0); var audited := plan.(cleanup := Some(finish));
            var end := WholeCleanup(c, us, force, begin, finish);
            end.pc.Deleted? && end.sincePlan != [] <==>
            && Folded(plan, us.1) == plan && finish.errors == [] && Folded(audited, us.3) == audited
            && (SomeCommits(plan, us.1) || SomeCommits(audited, us.3))
  {
    hide Next, Guarded, Folded, AfterUpdates, SomeCommits;
    DeletesIff(c, us, force, begin, finish);
    PlanAndBegin(c, us, force, begin);
    if Folded(Folded(c, us.0), us.1) == Folded(c, us.0) {
      var begun := Next(AfterUpdates(Next(AfterUpdates(StartOf(c), us.0), Load(force)), us.1), Begin(begin));
      RemovingStores(begun);
      BeginSince(c, us, force, begin);
      EndSince(begun, us.2, us.3, finish);
    }
  }

  /** Without a stamp that advances, an update that committed after the plan can go down with the record: one that
      stores the content it found, as a second save within the same clock second does. */
  lemma UnchangedUpdateIsDeletedToo() returns (s: State)
    ensures var again: Content -> Mutation := (c: Content) => Mutated(c);
            s == WholeCleanup(Content(None, Json.Null), ([], [again], [], []), false,
                              AuditRecord(FinishedStatus, false, [], false),
                              AuditRecord(FinishedStatus, true, [], false))
    ensures s.pc.Deleted? && |s.sincePlan| == 1
  {
    var again: Content -> Mutation := (c: Content) => Mutated(c);
    var c := Content(None, Json.Null);
    var begin := AuditRecord(FinishedStatus, false, [], false);
    var finish := AuditRecord(FinishedStatus, true, [], false);
    s := WholeCleanup(c, ([], [again], [], []), false, begin, finish);
    assert [again][1..] == [];
    var planned := Next(StartOf(c), Load(false));
    assert AfterUpdates(planned, [again]) == Next(planned, OrdinaryUpdate(again));
    var begun := Next(Next(planned, OrdinaryUpdate(again)), Begin(begin));
    assert begun.pc.Removing? && |begun.sincePlan| == 1;
    var finished := Next(begun, Finish(finish));
    assert finished.pc.AuditWritten? && |finished.sincePlan| == 1;
  }
}
