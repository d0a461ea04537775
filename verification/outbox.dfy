/** Remote mutations as a protocol: interleaved transactions, failing writes, and crashes at any point. */
module Outbox {
  import opened Common
  import opened RemoteJournal
  import Json

  /** What handling a remote result asks of the journal; the run update is part of the same write. */
  datatype TxResult = FinalizeResult | KeepPending | RecordApplied(record: Record, missing: MissingIntent)

  datatype Pc =
    | NotStarted
    | Calling
    | Raising
    | Replied
    | Marked(record: Record)
    | Remarked(result: TxResult)
    | Ended

  /** One transaction: performed says that the call took effect on the server, settled counts committed result writes,
      and completed that the runner came to its end without raising. */
  datatype Tx = Tx(pc: Pc, kind: string, intent: Option<Record>, performed: bool, returned: bool, raised: bool,
                   settled: nat, completed: bool)

  const UNSTARTED := Tx(NotStarted, "", None, false, false, false, 0, false)

  datatype Action =
    | RecordIntent(record: Record)
    | ReturnCall(effect: bool)
    | RaiseCall(effect: bool)
    | NoteUncertain(failure: Json.Value)
    | BreakRecord
    | MarkSucceeded(record: Record, missing: MissingIntent)
    | Remark(result: TxResult)
    | Settle(result: TxResult)
    | FinalizeLater
    | NoteCleanupFailure(failure: Json.Value)
    | Crash

  /** A step of transaction id; ok says whether the write of the step, if it has one, was committed. */
  datatype Step = Step(id: EntryId, action: Action, ok: bool)

  datatype System = System(field: Field, txs: map<EntryId, Tx>)

  function TxOf(s: System, id: EntryId): Tx {
    if id in s.txs then s.txs[id] else UNSTARTED
  }

  predicate Identifies(tx: Tx, id: EntryId, r: Record) {
    r.Valid() && r.id == id && r.kind == tx.kind
  }

  /** The order in which the runner takes its steps; ids are fresh when an intent is recorded. */
  predicate Enabled(entries: seq<Item>, tx: Tx, id: EntryId, a: Action) {
    match a
    case RecordIntent(r) => tx.pc.NotStarted? && r.Valid() && r.id == id && entries == []
    case ReturnCall(_) | RaiseCall(_) => tx.pc.Calling?
    case NoteUncertain(_) => tx.pc.Raising?
    case BreakRecord => tx.pc.Replied?
    case MarkSucceeded(r, _) => tx.pc.Replied? && Identifies(tx, id, r)
    case Remark(result) =>
      tx.pc.Marked? && result.RecordApplied? && Identifies(tx, id, result.record) && result.record != tx.pc.record
    case Settle(result) =>
      if tx.pc.Marked? then result.RecordApplied? ==> result.record == tx.pc.record else tx.pc == Remarked(result)
    case FinalizeLater => tx.completed && (tx.settled > 0 || !tx.performed)
    case NoteCleanupFailure(_) => tx.completed
    case Crash => !tx.pc.NotStarted?
  }

  function NextTx(tx: Tx, a: Action, ok: bool): Tx {
    match a
    case RecordIntent(r) => tx.(pc := if ok then Calling else Ended, kind := r.kind, intent := Some(r))
    case ReturnCall(effect) => tx.(pc := Replied, returned := true, performed := effect)
    case RaiseCall(effect) => tx.(pc := Raising, raised := true, performed := effect)
    case NoteUncertain(_) | BreakRecord | Crash => tx.(pc := Ended)
    case MarkSucceeded(r, _) => tx.(pc := if ok then Marked(r) else Ended)
    case Remark(result) => tx.(pc := if ok then Remarked(result) else Ended)
    case Settle(result) =>
      tx.(pc := Ended, settled := tx.settled + if ok && !result.KeepPending? then 1 else 0,
          completed := ok || result.KeepPending?)
    case FinalizeLater | NoteCleanupFailure(_) => tx
  }

  /** The journal after the write of an action. */
  function Written(f: Field, tx: Tx, id: EntryId, a: Action): Field {
    match a
    case RecordIntent(r) => AfterIntent(f, r)
    case ReturnCall(_) | RaiseCall(_) | Crash => f
    case NoteUncertain(failure) => AfterUncertain(f, id, failure)
    case BreakRecord => if tx.intent.Some? then AfterMark(f, id, tx.intent.value, RemoteSucceeded, IgnoreMissing) else f
    case MarkSucceeded(r, missing) => AfterMark(f, id, r, RemoteSucceeded, missing)
    case Remark(result) =>
      if result.RecordApplied? then AfterMark(f, id, result.record, RemoteSucceeded, result.missing) else f
    case Settle(result) => Settled(f, id, result)
    case FinalizeLater => AfterFinalize(f, id)
    case NoteCleanupFailure(failure) => AfterCleanupFailure(f, id, failure)
  }

  function Settled(f: Field, id: EntryId, result: TxResult): Field {
    match result
    case FinalizeResult => AfterFinalize(f, id)
    case KeepPending => f
    case RecordApplied(r, missing) => AfterMark(f, id, r, AppliedState, missing)
  }

  function Next(s: System, step: Step): System {
    var tx := TxOf(s, step.id);
    if !Enabled(EntriesOf(s.field, step.id), tx, step.id, step.action) then s
    else System(if step.ok then Written(s.field, tx, step.id, step.action) else s.field,
                s.txs[step.id := NextTx(tx, step.action, step.ok)])
  }

  function RunOf(s: System, steps: seq<Step>): System
    decreases |steps|
  {
    if steps == [] then s else RunOf(Next(s, steps[0]), steps[1..])
  }

  // ----- What a step does to the entries of its own transaction -----

  function MarkedEntries(entries: seq<Item>, r: Record, s: OutboxState, missing: MissingIntent): seq<Item> {
    if entries == [] && missing == RecordMissing then [Dict(EntryOf(r, s))] else Amended(entries, UpdateOf(r, s))
  }

  function WrittenEntries(entries: seq<Item>, tx: Tx, a: Action): seq<Item> {
    match a
    case RecordIntent(r) => entries + [Dict(EntryOf(r, IntentState))]
    case ReturnCall(_) | RaiseCall(_) | Crash => entries
    case NoteUncertain(failure) => Amended(entries, UncertainUpdate(failure))
    case BreakRecord =>
      if tx.intent.Some? then MarkedEntries(entries, tx.intent.value, RemoteSucceeded, IgnoreMissing) else entries
    case MarkSucceeded(r, missing) => MarkedEntries(entries, r, RemoteSucceeded, missing)
    case Remark(result) =>
      if result.RecordApplied? then MarkedEntries(entries, result.record, RemoteSucceeded, result.missing) else entries
    case Settle(result) => SettledEntries(entries, result)
    case FinalizeLater => []
    case NoteCleanupFailure(failure) => Amended(entries, map[CleanupFailureKey := failure])
  }

  function SettledEntries(entries: seq<Item>, result: TxResult): seq<Item> {
    match result
    case FinalizeResult => []
    case KeepPending => entries
    case RecordApplied(r, missing) => MarkedEntries(entries, r, AppliedState, missing)
  }

  /** The records a step writes carry the transaction's own id. */
  predicate OwnRecords(tx: Tx, id: EntryId) {
    && (tx.intent.Some? ==> Identifies(tx, id, tx.intent.value))
    && (tx.pc.Marked? ==> Identifies(tx, id, tx.pc.record))
    && (tx.pc.Remarked? ==> tx.pc.result.RecordApplied? && Identifies(tx, id, tx.pc.result.record))
  }

  lemma WrittenView(f: Field, tx: Tx, id: EntryId, a: Action, owner: Option<Json.Value>)
    requires OwnRecords(tx, id) && Enabled(EntriesOf(f, id), tx, id, a)
    ensures Carrying(ItemsOf(Written(f, tx, id, a)), owner) ==
            if owner == Some(Json.Text(id)) then WrittenEntries(EntriesOf(f, id), tx, a)
            else Carrying(ItemsOf(f), owner)
  {
    hide AfterIntent, AfterMark, AfterFinalize, AfterNote, Carrying, EntryOf, UpdateOf, Amended, UncertainUpdate;
    match a {
      case RecordIntent(r) => IntentView(f, r, owner);
      case ReturnCall(_) =>
      case RaiseCall(_) =>
      case Crash =>
      case NoteUncertain(failure) =>
        NotesKeepIdentity(failure);
        NoteView(f, id, UncertainUpdate(failure), owner);
      case BreakRecord => if tx.intent.Some? { MarkView(f, tx.intent.value, RemoteSucceeded, IgnoreMissing, owner); }
      case MarkSucceeded(r, missing) => MarkView(f, r, RemoteSucceeded, missing, owner);
      case Remark(result) => MarkView(f, result.record, RemoteSucceeded, result.missing, owner);
      case Settle(result) =>
        match result {
          case FinalizeResult => FinalizeIsIsolated(f, id, owner);
          case KeepPending =>
          case RecordApplied(r, missing) => MarkView(f, r, AppliedState, missing, owner);
        }
      case FinalizeLater => FinalizeIsIsolated(f, id, owner);
      case NoteCleanupFailure(failure) =>
        NotesKeepIdentity(failure);
        NoteView(f, id, map[CleanupFailureKey := failure], owner);
    }
  }

  // ----- The invariant of one transaction -----

  function StateIn(entries: seq<Item>): Option<OutboxState> {
    if entries != [] && entries[0].Dict? then EntryState(entries[0].entry) else None
  }

  predicate EntriesOk(entries: seq<Item>, tx: Tx, id: EntryId) {
    && |entries| <= 1
    && (entries != [] ==> HasId(entries[0], id) && Lookup(entries[0].entry, KindKey) == Json.Text(tx.kind)
                          && StateIn(entries).Some?)
  }

  predicate StateOk(state: Option<OutboxState>, tx: Tx) {
    && (tx.performed && tx.settled == 0 ==> state.Some?)
    && (state == Some(RemoteSucceeded) ==> tx.returned)
    && (state == Some(AppliedState) ==> tx.returned && tx.settled == 1)
    && (state == Some(Uncertain) ==> tx.raised)
    && (tx.settled > 0 ==> tx.returned && tx.settled == 1)
    && (tx.performed ==> tx.returned || tx.raised)
    && !(tx.returned && tx.raised)
    && (tx.completed ==> tx.pc.Ended? && tx.returned && state != Some(IntentState))
  }

  predicate PcOk(state: Option<OutboxState>, tx: Tx) {
    match tx.pc
    case NotStarted => tx == UNSTARTED
    case Calling => state == Some(IntentState) && tx.intent.Some? && !tx.returned && !tx.raised
    case Raising => state == Some(IntentState) && tx.raised
    case Replied => state == Some(IntentState) && tx.intent.Some? && tx.returned && tx.settled == 0
    case Marked(_) => state == Some(RemoteSucceeded) && tx.settled == 0
    case Remarked(_) => state == Some(RemoteSucceeded) && tx.settled == 0
    case Ended => true
  }

  predicate TxOk(entries: seq<Item>, tx: Tx, id: EntryId) {
    OwnRecords(tx, id) && (if tx.pc.NotStarted? then tx == UNSTARTED else
      EntriesOk(entries, tx, id) && StateOk(StateIn(entries), tx) && PcOk(StateIn(entries), tx))
  }

  /** Where the journal may move an entry: absent is None. */
  predicate AllowedMove(a: Option<OutboxState>, b: Option<OutboxState>) {
    || a == b
    || (a == None && b == Some(IntentState))
    || (a == Some(IntentState) && (b == Some(RemoteSucceeded) || b == Some(Uncertain)))
    || (a == Some(RemoteSucceeded) && (b == Some(AppliedState) || b == None))
    || (a == Some(AppliedState) && b == None)
  }

  lemma MarkedOk(entries: seq<Item>, tx: Tx, id: EntryId, r: Record, s: OutboxState, missing: MissingIntent)
    requires EntriesOk(entries, tx, id) && entries != [] && Identifies(tx, id, r)
    ensures EntriesOk(MarkedEntries(entries, r, s, missing), tx, id)
    ensures StateIn(MarkedEntries(entries, r, s, missing)) == Some(s)
  {
    hide EntryState;
    MarkedState(entries[0].entry, r, s, Json.Null);
    UpdateKeepsIdentity(r, s);
  }

  lemma IntentOk(tx: Tx, id: EntryId, r: Record)
    requires Identifies(tx, id, r)
    ensures EntriesOk([Dict(EntryOf(r, IntentState))], tx, id)
    ensures StateIn([Dict(EntryOf(r, IntentState))]) == Some(IntentState)
  {
    hide EntryState;
    MarkedState(map[], r, IntentState, Json.Null);
    RecordedIdentity(r, IntentState);
  }

  lemma NotedOk(entries: seq<Item>, tx: Tx, id: EntryId, failure: Json.Value)
    requires EntriesOk(entries, tx, id) && entries != []
    ensures EntriesOk(Amended(entries, UncertainUpdate(failure)), tx, id)
    ensures StateIn(Amended(entries, UncertainUpdate(failure))) == Some(Uncertain)
    ensures EntriesOk(Amended(entries, map[CleanupFailureKey := failure]), tx, id)
    ensures StateIn(Amended(entries, map[CleanupFailureKey := failure])) == StateIn(entries)
  {
    hide EntryState;
    MarkedState(entries[0].entry, Record(id, tx.kind, map[]), Uncertain, failure);
  }

  /** One committed step of a transaction keeps its invariant and moves its entry along an allowed edge. */
  lemma WrittenOk(entries: seq<Item>, tx: Tx, id: EntryId, a: Action)
    requires TxOk(entries, tx, id) && Enabled(entries, tx, id, a)
    ensures TxOk(WrittenEntries(entries, tx, a), NextTx(tx, a, true), id)
    ensures AllowedMove(StateIn(entries), StateIn(WrittenEntries(entries, tx, a)))
  {
    hide EntryState, EntryOf, UpdateOf, MarkedEntries, Amended, UncertainUpdate, EntriesOk;
    EntriesOkKeepsKind(entries, tx, NextTx(tx, a, true), id);
    NoEntries(NextTx(tx, a, true), id);
    match a {
      case RecordIntent(r) =>
        IntentOk(NextTx(tx, a, true), id, r);
        assert entries + [Dict(EntryOf(r, IntentState))] == [Dict(EntryOf(r, IntentState))];
      case ReturnCall(_) =>
      case RaiseCall(_) =>
      case Crash =>
      case NoteUncertain(failure) => NotedOk(entries, NextTx(tx, a, true), id, failure);
      case BreakRecord => MarkedOk(entries, NextTx(tx, a, true), id, tx.intent.value, RemoteSucceeded, IgnoreMissing);
      case MarkSucceeded(r, missing) => MarkedOk(entries, NextTx(tx, a, true), id, r, RemoteSucceeded, missing);
      case Remark(result) => MarkedOk(entries, NextTx(tx, a, true), id, result.record, RemoteSucceeded, result.missing);
      case Settle(result) =>
        if result.RecordApplied? {
          MarkedOk(entries, NextTx(tx, a, true), id, result.record, AppliedState, result.missing);
        }
      case FinalizeLater => CompletedState(StateIn(entries), tx);
      case NoteCleanupFailure(failure) =>
        AmendedNothing(map[CleanupFailureKey := failure]);
        if entries != [] { NotedOk(entries, NextTx(tx, a, true), id, failure); }
    }
  }

  lemma CompletedState(state: Option<OutboxState>, tx: Tx)
    requires StateOk(state, tx) && tx.completed
    ensures state in {None, Some(RemoteSucceeded), Some(AppliedState)}
  {
    if state.Some? {
      match state.value {
        case IntentState => assert false;
        case RemoteSucceeded =>
        case AppliedState =>
        case Uncertain => assert false;
      }
    }
  }

  lemma AmendedNothing(update: Entry)
    ensures Amended([], update) == []
  {
  }

  lemma EntriesOkKeepsKind(entries: seq<Item>, tx: Tx, next: Tx, id: EntryId)
    ensures EntriesOk(entries, tx, id) && tx.kind == next.kind ==> EntriesOk(entries, next, id)
    ensures EntriesOk(entries, tx, id) && entries == [] ==> StateIn(entries) == None
    ensures EntriesOk(entries, tx, id) && StateIn(entries).Some? ==> entries != []
  {
  }

  lemma NoEntries(tx: Tx, id: EntryId)
    ensures EntriesOk([], tx, id) && StateIn([]) == None
  {
  }

  /** A step whose write fails leaves the journal as it was and the transaction consistent with it. */
  lemma UnwrittenOk(entries: seq<Item>, tx: Tx, id: EntryId, a: Action)
    requires TxOk(entries, tx, id) && Enabled(entries, tx, id, a)
    ensures TxOk(entries, NextTx(tx, a, false), id)
  {
    hide EntryState, EntriesOk;
    EntriesOkKeepsKind(entries, tx, NextTx(tx, a, false), id);
    NoEntries(NextTx(tx, a, false), id);
  }

  // ----- All interleavings -----

  ghost predicate Consistent(s: System) {
    forall id :: TxOk(EntriesOf(s.field, id), TxOf(s, id), id)
  }

  /** Every transaction and journal entry other than the step's own stays as it is. */
  lemma StepElsewhere(s: System, step: Step, id: EntryId, owner: Option<Json.Value>)
    requires OwnRecords(TxOf(s, step.id), step.id)
    ensures id != step.id ==> TxOf(Next(s, step), id) == TxOf(s, id)
    ensures owner != Some(Json.Text(step.id)) ==>
              Carrying(ItemsOf(Next(s, step).field), owner) == Carrying(ItemsOf(s.field), owner)
  {
    hide Written, Enabled, NextTx, Carrying, OwnRecords;
    if Enabled(EntriesOf(s.field, step.id), TxOf(s, step.id), step.id, step.action) {
      WrittenView(s.field, TxOf(s, step.id), step.id, step.action, owner);
    }
  }

  lemma StepOwn(s: System, step: Step)
    requires TxOk(EntriesOf(s.field, step.id), TxOf(s, step.id), step.id)
    ensures TxOk(EntriesOf(Next(s, step).field, step.id), TxOf(Next(s, step), step.id), step.id)
    ensures AllowedMove(StateIn(EntriesOf(s.field, step.id)), StateIn(EntriesOf(Next(s, step).field, step.id)))
  {
    hide Written, Enabled, NextTx, Carrying, TxOk, AllowedMove, StateIn, WrittenEntries;
    var tx, entries := TxOf(s, step.id), EntriesOf(s.field, step.id);
    if Enabled(entries, tx, step.id, step.action) {
      TxOkOwns(entries, tx, step.id);
      WrittenView(s.field, tx, step.id, step.action, Some(Json.Text(step.id)));
      WrittenOk(entries, tx, step.id, step.action);
      UnwrittenOk(entries, tx, step.id, step.action);
    }
    StayingIsAllowed(StateIn(entries));
  }

  lemma TxOkOwns(entries: seq<Item>, tx: Tx, id: EntryId)
    requires TxOk(entries, tx, id)
    ensures OwnRecords(tx, id)
  {
  }

  lemma StayingIsAllowed(state: Option<OutboxState>)
    ensures AllowedMove(state, state)
  {
  }

  /** Any step of any transaction keeps all transactions consistent and moves entries along allowed edges only. */
  lemma StepKeepsConsistent(s: System, step: Step)
    requires Consistent(s)
    ensures Consistent(Next(s, step))
    ensures forall id :: AllowedMove(StateIn(EntriesOf(s.field, id)), StateIn(EntriesOf(Next(s, step).field, id)))
  {
    hide Next, Carrying, TxOk, AllowedMove, StateIn, OwnRecords;
    TxOkOwns(EntriesOf(s.field, step.id), TxOf(s, step.id), step.id);
    StepOwn(s, step);
    forall id
      ensures TxOk(EntriesOf(Next(s, step).field, id), TxOf(Next(s, step), id), id)
      ensures AllowedMove(StateIn(EntriesOf(s.field, id)), StateIn(EntriesOf(Next(s, step).field, id)))
    {
      if id != step.id { StepElsewhere(s, step, id, Some(Json.Text(id))); }
      StayingIsAllowed(StateIn(EntriesOf(s.field, id)));
    }
  }

  lemma {:induction false} RunKeepsConsistent(s: System, steps: seq<Step>)
    requires Consistent(s)
    ensures Consistent(RunOf(s, steps))
    decreases |steps|
  {
    hide Consistent, Next;
    if steps != [] {
      StepKeepsConsistent(s, steps[0]);
      RunKeepsConsistent(Next(s, steps[0]), steps[1..]);
    }
  }

  /** Any journal whatsoever, with no transaction running yet. */
  function Idle(f: Field): System {
    System(f, map[])
  }

  lemma IdleIsConsistent(f: Field)
    ensures Consistent(Idle(f))
  {
  }

  /** A remote call that took effect has an entry among the pending ones of its kind, until the one write that commits
      its result: whatever is interleaved, whichever writes fail, wherever a transaction dies. */
  lemma NoLostRemoteEffect(f: Field, steps: seq<Step>, id: EntryId)
    ensures var s := RunOf(Idle(f), steps); var tx := TxOf(s, id);
            tx.performed && tx.settled == 0 ==>
              exists e :: e in PendingOf(ItemsOf(s.field), Some(tx.kind), ALL_STATES)
                  && Lookup(e, IdKey) == Json.Text(id)
  {
    hide Next, Carrying, StateIn, EntryState;
    IdleIsConsistent(f);
    RunKeepsConsistent(Idle(f), steps);
    var s := RunOf(Idle(f), steps);
    var tx, entries := TxOf(s, id), EntriesOf(s.field, id);
    if tx.performed && tx.settled == 0 {
      StateHasEntry(entries, tx, id);
      CarryingMembers(ItemsOf(s.field), Some(Json.Text(id)));
      PendingExactly(ItemsOf(s.field), Some(tx.kind), ALL_STATES, entries[0].entry);
    }
  }

  lemma StateHasEntry(entries: seq<Item>, tx: Tx, id: EntryId)
    requires TxOk(entries, tx, id) && tx.performed && tx.settled == 0
    ensures entries != [] && entries[0].Dict? && Requested(entries[0].entry, Some(tx.kind), ALL_STATES)
    ensures entries[0] in entries && Lookup(entries[0].entry, IdKey) == Json.Text(id)
  {
    hide EntryState;
    EveryStateIsPending(EntryState(entries[0].entry).value);
  }

  lemma EveryStateIsPending(s: OutboxState)
    ensures s in ALL_STATES
  {
    match s {
      case IntentState =>
      case RemoteSucceeded =>
      case AppliedState =>
      case Uncertain =>
    }
  }

  lemma {:induction false} CarryingMembers(items: seq<Item>, owner: Option<Json.Value>)
    ensures forall i :: i in Carrying(items, owner) ==> i in items
  {
    if items != [] {
      var n := |items| - 1;
      CarryingMembers(items[..n], owner);
      assert items == items[..n] + [items[n]];
    }
  }

  /** The journal tells the truth about a transaction: succeeded or applied entries had their call return, uncertain
      ones had it raise, and a result is committed at most once and only after a return. */
  lemma JournalIsHonest(f: Field, steps: seq<Step>, id: EntryId)
    ensures var s := RunOf(Idle(f), steps); var tx := TxOf(s, id); var state := StateIn(EntriesOf(s.field, id));
            !tx.pc.NotStarted? ==>
              && (state == Some(RemoteSucceeded) || state == Some(AppliedState) ==> tx.returned && !tx.raised)
              && (state == Some(Uncertain) ==> tx.raised && !tx.returned)
              && (state == Some(AppliedState) ==> tx.settled == 1)
              && tx.settled <= 1 && (tx.settled == 1 ==> tx.returned)
              && |EntriesOf(s.field, id)| <= 1
  {
    hide Next, Carrying, StateIn;
    IdleIsConsistent(f);
    RunKeepsConsistent(Idle(f), steps);
    var s := RunOf(Idle(f), steps);
    assert TxOk(EntriesOf(s.field, id), TxOf(s, id), id);
  }

  /** At every step of every run each entry stays, or moves intent to succeeded to applied to removed, or intent to
      uncertain; finalizing without an applied record removes a succeeded entry directly. */
  lemma EntriesMoveForward(f: Field, steps: seq<Step>, step: Step, id: EntryId)
    ensures var s := RunOf(Idle(f), steps);
            AllowedMove(StateIn(EntriesOf(s.field, id)), StateIn(EntriesOf(Next(s, step).field, id)))
  {
    hide Consistent, Next, AllowedMove;
    IdleIsConsistent(f);
    RunKeepsConsistent(Idle(f), steps);
    StepKeepsConsistent(RunOf(Idle(f), steps), step);
  }

  /** Entries that no transaction of the run owns, and items that are no entries, survive every run in order. */
  lemma {:induction false} RunIsIsolated(s: System, steps: seq<Step>, owner: Option<Json.Value>)
    requires Consistent(s)
    requires forall step :: step in steps ==> owner != Some(Json.Text(step.id))
    ensures Carrying(ItemsOf(RunOf(s, steps).field), owner) == Carrying(ItemsOf(s.field), owner)
    decreases |steps|
  {
    hide Next, Carrying, TxOk;
    if steps != [] {
      assert steps[0] in steps;
      TxOkOwns(EntriesOf(s.field, steps[0].id), TxOf(s, steps[0].id), steps[0].id);
      StepElsewhere(s, steps[0], steps[0].id, owner);
      StepKeepsConsistent(s, steps[0]);
      RunIsIsolated(Next(s, steps[0]), steps[1..], owner);
    }
  }

  // ----- The runner in place -----

  datatype CallResult = CallRaised(effect: bool, failure: Json.Value) | CallReturned(effect: bool)

  /** What one execution of the runner meets: record is None when building the succeeded record raises, result is None
      when handling the result raises, and writes(k) says whether the k-th write is committed. */
  datatype Script = Script(
    intent: Record,
    call: CallResult,
    record: Option<Record>,
    missing: MissingIntent,
    result: Option<TxResult>,
    writes: nat -> bool)
  {
    predicate Valid() {
      && intent.Valid()
      && (record.Some? ==> SameIdentity(record.value))
      && (result.Some? && result.value.RecordApplied? ==> SameIdentity(result.value.record))
    }

    predicate SameIdentity(r: Record) { r.Valid() && r.id == intent.id && r.kind == intent.kind }
  }

  lemma {:induction false} RunAppend(s: System, steps: seq<Step>, step: Step)
    ensures RunOf(s, steps + [step]) == Next(RunOf(s, steps), step)
    decreases |steps|
  {
    hide Next;
    if steps == [] {
      assert ([] + [step])[1..] == [];
      assert RunOf(Next(s, step), []) == Next(s, step);
    } else {
      assert (steps + [step])[0] == steps[0] && (steps + [step])[1..] == steps[1..] + [step];
      RunAppend(Next(s, steps[0]), steps[1..], step);
    }
  }

  /** The transaction and field that a system reaches by a step, when the step is enabled. */
  lemma StepTaken(s: System, step: Step, tx: Tx)
    requires tx == TxOf(s, step.id) && Enabled(EntriesOf(s.field, step.id), tx, step.id, step.action)
    ensures TxOf(Next(s, step), step.id) == NextTx(tx, step.action, step.ok)
    ensures Next(s, step).field == if step.ok then Written(s.field, tx, step.id, step.action) else s.field
  {
    hide Written, NextTx, Enabled;
  }

  // ----- What the runner leaves in the journal -----

  /** The transaction has one entry, which carries the record and reads back in the state. */
  ghost predicate Leaves(entries: seq<Item>, r: Record, s: OutboxState) {
    |entries| == 1 && entries[0].Dict? && Carries(entries[0].entry, r, s)
  }

  ghost predicate LeavesUncertain(entries: seq<Item>, failure: Json.Value) {
    && |entries| == 1 && entries[0].Dict? && EntryState(entries[0].entry) == Some(Uncertain)
    && Lookup(entries[0].entry, UncertainFailureKey) == failure
  }

  /** What an execution leaves whose writes are all committed. */
  ghost predicate Outcome(script: Script, entries: seq<Item>, completed: bool) {
    if script.call.CallRaised? then !completed && LeavesUncertain(entries, script.call.failure)
    else if script.record.None? then !completed && Leaves(entries, script.intent, RemoteSucceeded)
    else if script.result.None? then !completed && Leaves(entries, script.record.value, RemoteSucceeded)
    else
      && completed
      && match script.result.value
         case FinalizeResult => entries == []
         case KeepPending => Leaves(entries, script.record.value, RemoteSucceeded)
         case RecordApplied(r, _) => Leaves(entries, r, AppliedState)
  }

  lemma IntentLeaves(f: Field, r: Record)
    requires r.Valid() && EntriesOf(f, r.id) == []
    ensures Leaves(EntriesOf(AfterIntent(f, r), r.id), r, IntentState)
  {
    hide Carrying, EntryOf, AfterIntent, Carries;
    IntentView(f, r, Some(Json.Text(r.id)));
    EntryCarries(r, IntentState);
  }

  lemma MarkLeaves(f: Field, before: Record, was: OutboxState, r: Record, s: OutboxState, missing: MissingIntent)
    requires r.Valid() && Leaves(EntriesOf(f, r.id), before, was)
    ensures Leaves(EntriesOf(AfterMark(f, r.id, r, s, missing), r.id), r, s)
  {
    hide Carrying, EntryOf, UpdateOf, AfterMark, Carries;
    MarkView(f, r, s, missing, Some(Json.Text(r.id)));
    UpdateCarries(EntriesOf(f, r.id)[0].entry, r, s);
  }

  lemma UncertainLeaves(f: Field, id: EntryId, before: Record, was: OutboxState, failure: Json.Value)
    requires Leaves(EntriesOf(f, id), before, was)
    ensures LeavesUncertain(EntriesOf(AfterUncertain(f, id, failure), id), failure)
  {
    hide Carrying, UncertainUpdate, AfterNote, EntryState;
    NotesKeepIdentity(failure);
    NoteView(f, id, UncertainUpdate(failure), Some(Json.Text(id)));
    NotesCarry(EntriesOf(f, id)[0].entry, failure);
  }

  class RemoteMutationRunner {
    const run: JournalledRun

    constructor (run: JournalledRun)
      ensures this.run == run
    {
      this.run := run;
    }

    ghost predicate Tracks(s: System, steps: seq<Step>, id: EntryId, tx: Tx)
      reads this, run
    {
      run.field == RunOf(s, steps).field && TxOf(RunOf(s, steps), id) == tx
    }

    /** The writes and the calls of one execution are a run of the protocol for this transaction alone. */
    method Execute(script: Script) returns (completed: bool, ghost steps: seq<Step>)
      requires script.Valid() && EntriesOf(run.field, script.intent.id) == []
      modifies run
      ensures run.field == RunOf(Idle(old(run.field)), steps).field
      ensures forall step :: step in steps ==> step.id == script.intent.id
      ensures completed <==> TxOf(RunOf(Idle(old(run.field)), steps), script.intent.id).completed
      ensures completed ==> script.call.CallReturned? && script.record.Some? && script.result.Some?
      ensures (forall k :: script.writes(k)) ==> Outcome(script, EntriesOf(run.field, script.intent.id), completed)
    {
      hide AfterIntent, AfterMark, AfterUncertain, AfterFinalize, RunOf, Carrying, Next, Leaves, Outcome;
      IntentLeaves(run.field, script.intent);
      ghost var s := Idle(run.field);
      ghost var id := script.intent.id;
      steps := [];
      RunNothing(s);
      completed := false;
      ghost var step := Step(id, RecordIntent(script.intent), script.writes(0));
      RunAppend(s, steps, step);
      StepTaken(RunOf(s, steps), step, UNSTARTED);
      steps := steps + [step];
      if !script.writes(0) { return; }
      run.RecordIntent(script.intent);
      ghost var tx := NextTx(UNSTARTED, step.action, true);
      assert Tracks(s, steps, id, tx);
      completed, steps := Call(script, s, steps, tx);
    }

    method Call(script: Script, ghost s: System, ghost before: seq<Step>, ghost tx: Tx)
        returns (completed: bool, ghost steps: seq<Step>)
      requires script.Valid() && Tracks(s, before, script.intent.id, tx) && tx.pc.Calling?
               && tx.kind == script.intent.kind
      requires tx.intent == Some(script.intent) && !tx.completed
      requires forall step :: step in before ==> step.id == script.intent.id
      requires Leaves(EntriesOf(run.field, script.intent.id), script.intent, IntentState)
      modifies run
      ensures run.field == RunOf(s, steps).field
      ensures forall step :: step in steps ==> step.id == script.intent.id
      ensures completed <==> TxOf(RunOf(s, steps), script.intent.id).completed
      ensures completed ==> script.call.CallReturned? && script.record.Some? && script.result.Some?
      ensures (forall k :: script.writes(k)) ==> Outcome(script, EntriesOf(run.field, script.intent.id), completed)
    {
      hide AfterMark, AfterUncertain, RunOf, Carrying, Next, Leaves, LeavesUncertain;
      ghost var id := script.intent.id;
      completed, steps := false, before;
      ghost var step;
      match script.call {
        case CallRaised(effect, failure) =>
          step := Step(id, RaiseCall(effect), true);
          RunAppend(s, steps, step);
          StepTaken(RunOf(s, steps), step, tx);
          steps := steps + [step];
          ghost var raised := NextTx(tx, step.action, true);
          step := Step(id, NoteUncertain(failure), script.writes(1));
          RunAppend(s, steps, step);
          StepTaken(RunOf(s, steps), step, raised);
          steps := steps + [step];
          UncertainLeaves(run.field, script.intent.id, script.intent, IntentState, failure);
          if script.writes(1) { run.MarkUncertain(script.intent.id, failure); }
          return;
        case CallReturned(effect) =>
          step := Step(id, ReturnCall(effect), true);
          RunAppend(s, steps, step);
          StepTaken(RunOf(s, steps), step, tx);
          steps := steps + [step];
          completed, steps := Succeed(script, s, steps, NextTx(tx, step.action, true));
      }
    }

    method Succeed(script: Script, ghost s: System, ghost before: seq<Step>, ghost tx: Tx)
        returns (completed: bool, ghost steps: seq<Step>)
      requires script.Valid() && Tracks(s, before, script.intent.id, tx) && tx.pc.Replied?
               && tx.kind == script.intent.kind
      requires tx.intent == Some(script.intent) && !tx.completed
      requires forall step :: step in before ==> step.id == script.intent.id
      requires script.call.CallReturned? && Leaves(EntriesOf(run.field, script.intent.id), script.intent, IntentState)
      modifies run
      ensures run.field == RunOf(s, steps).field
      ensures forall step :: step in steps ==> step.id == script.intent.id
      ensures completed <==> TxOf(RunOf(s, steps), script.intent.id).completed
      ensures completed ==> script.record.Some? && script.result.Some?
      ensures (forall k :: script.writes(k)) ==> Outcome(script, EntriesOf(run.field, script.intent.id), completed)
    {
      hide AfterMark, RunOf, Carrying, Next, Leaves;
      var id := script.intent.id;
      MarkLeaves(run.field, script.intent, IntentState, script.intent, RemoteSucceeded, IgnoreMissing);
      if script.record.Some? {
        MarkLeaves(run.field, script.intent, IntentState, script.record.value, RemoteSucceeded, script.missing);
      }
      completed, steps := false, before;
      ghost var step;
      if script.record.None? {
        step := Step(id, BreakRecord, script.writes(1));
        RunAppend(s, steps, step);
        StepTaken(RunOf(s, steps), step, tx);
        steps := steps + [step];
        if script.writes(1) { var _ := run.Mark(id, script.intent, RemoteSucceeded, IgnoreMissing); }
        return;
      }
      step := Step(id, MarkSucceeded(script.record.value, script.missing), script.writes(1));
      RunAppend(s, steps, step);
      StepTaken(RunOf(s, steps), step, tx);
      steps := steps + [step];
      if !script.writes(1) { return; }
      var _ := run.Mark(id, script.record.value, RemoteSucceeded, script.missing);
      if script.result.None? { return; }
      completed, steps := HandleResult(script, s, steps, NextTx(tx, step.action, true));
    }

    method HandleResult(script: Script, ghost s: System, ghost before: seq<Step>, ghost tx: Tx)
        returns (completed: bool, ghost steps: seq<Step>)
      requires script.Valid() && script.record.Some? && script.result.Some?
      requires Tracks(s, before, script.intent.id, tx) && tx.pc == Marked(script.record.value)
               && tx.kind == script.intent.kind
      requires !tx.completed && script.call.CallReturned?
      requires forall step :: step in before ==> step.id == script.intent.id
      requires Leaves(EntriesOf(run.field, script.intent.id), script.record.value, RemoteSucceeded)
      modifies run
      ensures run.field == RunOf(s, steps).field
      ensures forall step :: step in steps ==> step.id == script.intent.id
      ensures completed <==> TxOf(RunOf(s, steps), script.intent.id).completed
      ensures (forall k :: script.writes(k)) ==> Outcome(script, EntriesOf(run.field, script.intent.id), completed)
    {
      hide AfterMark, AfterFinalize, RunOf, Carrying, Next, Leaves;
      var id, result := script.intent.id, script.result.value;
      completed, steps := false, before;
      ghost var step;
      ghost var now := tx;
      if result.RecordApplied? && result.record != script.record.value {
        step := Step(id, Remark(result), script.writes(2));
        RunAppend(s, steps, step);
        StepTaken(RunOf(s, steps), step, now);
        steps := steps + [step];
        if !script.writes(2) { return; }
        MarkLeaves(run.field, script.record.value, RemoteSucceeded, result.record, RemoteSucceeded, result.missing);
        var _ := run.Mark(id, result.record, RemoteSucceeded, result.missing);
        now := NextTx(now, step.action, true);
      }
      step := Step(id, Settle(result), script.writes(3));
      RunAppend(s, steps, step);
      StepTaken(RunOf(s, steps), step, now);
      steps := steps + [step];
      match result {
        case KeepPending => return true, steps;
        case FinalizeResult =>
          FinalizeIsIsolated(run.field, id, Some(Json.Text(id)));
          if script.writes(3) { run.Finalize(id); }
        case RecordApplied(r, missing) =>
          MarkLeaves(run.field, r, RemoteSucceeded, r, AppliedState, missing);
          if script.writes(3) { var _ := run.Mark(id, r, AppliedState, missing); }
      }
      completed := script.writes(3);
    }
  }

  lemma RunNothing(s: System)
    ensures RunOf(s, []) == s
  {
  }
}
