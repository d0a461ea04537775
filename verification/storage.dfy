/** The codec between persisted worker snapshots, old and new, and hydrated workers. */
module Storage {
  import opened Common
  import opened Lifecycle
  import opened Json

  // ----- Fields -----

  datatype FieldName =
    | Id | Role | SessionId | Agent | Model | Dependencies | PromptIds | RetryCount | RetryLimit | RetryableFailures
    | TimeoutSeconds | TimeoutPolicyName | TimeoutStartedAt | TimedOutAt | LifecycleName
    | FailureCategory | FailureReason
    | LastFailureCategory | LastFailureReason | Blockers | OutputRefs
    | Name | Title | Prompt | ErrorText | FailureRetryable | ManualRetryRequired | Cleanup | Abort | Attempts | Result
    | StatusName | NextActionName
    | OtherField(name: string)

  type Fields = map<FieldName, Value>

  function RequiredFields(): set<FieldName> {
    {Id, Role, SessionId, Agent, Model, Dependencies, PromptIds, RetryCount, RetryLimit, RetryableFailures,
     TimeoutSeconds, TimeoutPolicyName, TimeoutStartedAt, TimedOutAt, LifecycleName, FailureCategory, FailureReason,
     LastFailureCategory, LastFailureReason, Blockers, OutputRefs}
  }

  /** The output-only fields that old snapshots stored. */
  const PUBLIC: set<FieldName> := {StatusName, NextActionName}

  predicate IsCanonical(f: FieldName) { !f.StatusName? && !f.NextActionName? && !f.OtherField? }

  datatype Kind = AnyKind | IdKind | IntKind | ListKind | SecondsKind | PolicyKind | LifecycleKind

  function KindOf(f: FieldName): Kind {
    match f
    case Id => IdKind
    case RetryCount | RetryLimit => IntKind
    case Dependencies | PromptIds | RetryableFailures | Blockers | OutputRefs | Attempts => ListKind
    case TimeoutSeconds => SecondsKind
    case TimeoutPolicyName => PolicyKind
    case LifecycleName => LifecycleKind
    case _ => AnyKind
  }

  const INT_FIELDS := [RetryCount, RetryLimit]
  const LIST_FIELDS := [Dependencies, PromptIds, RetryableFailures, Blockers, OutputRefs, Attempts]
  const SECONDS_FIELDS := [TimeoutSeconds]
  const POLICY_FIELDS := [TimeoutPolicyName]

  function Lookup(fields: Fields, f: FieldName): Value {
    if f in fields then fields[f] else Null
  }

  function StateName(s: State): string {
    match s
    case Queued => "queued"
    case ActiveWait => "active_wait"
    case ActiveRetry => "active_retry"
    case BlockedDependency => "blocked_dependency"
    case BlockedTimeout => "blocked_timeout"
    case DoneCollect => "done_collect"
    case FailedRetry => "failed_retry"
    case FailedTerminal => "failed_terminal"
    case TimeoutRetry => "timeout_retry"
    case TimeoutTerminal => "timeout_terminal"
    case TimeoutFailedRetry => "timeout_failed_retry"
    case TimeoutFailedTerminal => "timeout_failed_terminal"
    case TimeoutAborted => "timeout_aborted"
    case AbortedState => "aborted"
  }

  predicate IsStateName(v: Value) {
    exists s: State :: v == Text(StateName(s))
  }

  function PolicyName(p: TimeoutPolicy): string {
    match p
    case PolicyTimeout => "timeout"
    case PolicyBlocked => "blocked"
    case PolicyFailed => "failed"
    case PolicyAborted => "aborted"
  }

  predicate IsPolicyName(v: Value) {
    exists p: TimeoutPolicy :: v == Text(PolicyName(p))
  }

  /** The runtime's texts and numbers: shown is str(v), canon is str(v) stripped, lowered and with dashes as
      underscores; toInt and toFloat parse a number out of a text; fits says which integers a float can hold. */
  datatype Texts = Texts(
    shown: Value -> string,
    canon: Value -> string,
    toInt: string -> Option<int>,
    toFloat: string -> Option<real>,
    fits: int -> bool)

  // ----- Coercions on the way in -----

  function Truncated(r: real): int {
    if r >= 0.0 then r.Floor else -((-r).Floor)
  }

  /** A number beyond the floats is read as an infinite one. */
  predicate Infinite(r: real, t: Texts) {
    !t.fits(Truncated(r))
  }

  /** int(value) raises an overflow, which nobody catches, on an infinite number. */
  predicate IntOverflows(v: Value, t: Texts) {
    v.Float? && Infinite(v.r, t)
  }

  /** So does asking whether an integer beyond the floats is finite. */
  predicate SecondsOverflow(v: Value, t: Texts) {
    v.Int? && !t.fits(v.n)
  }

  predicate Overflows(k: Kind, v: Value, t: Texts) {
    match k
    case IntKind => IntOverflows(v, t)
    case SecondsKind => SecondsOverflow(v, t)
    case _ => false
  }

  /** int(value), where it succeeds. */
  function AsInt(v: Value, t: Texts): Option<int> {
    match v
    case Int(n) => Some(n)
    case Bool(flag) => Some(if flag then 1 else 0)
    case Float(r) => Some(Truncated(r))
    case Text(text) => t.toInt(text)
    case Null | List(_) | Object(_) => None
  }

  function OrZero(v: Value): Value {
    if Truthy(v) then v else Int(0)
  }

  function StorageInt(v: Value, t: Texts): int {
    GetOr(AsInt(OrZero(v), t), 0)
  }

  function PositiveSeconds(r: real, t: Texts): Value {
    if r <= 0.0 || Infinite(r, t) then Null else if r == r.Floor as real then Int(r.Floor) else Float(r)
  }

  function StorageSeconds(v: Value, t: Texts): Value {
    match v
    case Int(n) => if n <= 0 then Null else Int(n)
    case Float(r) => PositiveSeconds(r, t)
    case Text(text) => (match t.toFloat(text) case Some(r) => PositiveSeconds(r, t) case None => Null)
    case Null | Bool(_) | List(_) | Object(_) => Null
  }

  function StatusOf(word: string): Option<Status> {
    if word in {"queued", "pending", "initialized", "submitted", "admitted"} then Some(QueuedStatus)
    else if word in {"active", "running", "started", "promoted", "processing", "in_progress", "working",
        "aborting"} then Some(Active)
    else if word in {"blocked", "waiting", "needs_input"} then Some(Blocked)
    else if word in {"done", "complete", "completed", "success", "succeeded", "idle"} then Some(Done)
    else if word in {"failed", "failure", "error", "errored"} then Some(Failed)
    else if word in {"aborted", "abort", "cancelled", "canceled"} then Some(Aborted)
    else if word in {"timeout", "timed_out", "timedout"} then Some(TimedOutStatus)
    else None
  }

  /** short_status of a stored value, as far as it is a known status. */
  function ShortStatus(v: Value, t: Texts): Option<Status> {
    if v == Null then None else StatusOf(t.canon(v))
  }

  function StoragePolicy(v: Value, t: Texts): Value {
    match ShortStatus(v, t)
    case Some(Blocked) => Text("blocked")
    case Some(Failed) => Text("failed")
    case Some(Aborted) => Text("aborted")
    case _ => Text("timeout")
  }

  function Coerced(k: Kind, v: Value, t: Texts): Value {
    match k
    case IntKind => Int(StorageInt(v, t))
    case ListKind => if v.List? then v else List([])
    case SecondsKind => StorageSeconds(v, t)
    case PolicyKind => StoragePolicy(v, t)
    case AnyKind | IdKind | LifecycleKind => v
  }

  // ----- The lifecycle state of snapshots that only stored a public state -----

  predicate Hashable(v: Value) { !v.List? && !v.Object? }

  function LegacyList(fields: Fields, f: FieldName): seq<Value> {
    if Lookup(fields, f).List? then Lookup(fields, f).items else []
  }

  function LegacyRetryAvailable(fields: Fields, category: Option<Value>, t: Texts): bool {
    var retryable := LegacyList(fields, RetryableFailures);
    var own := if Truthy(Lookup(fields, FailureCategory)) then Lookup(fields, FailureCategory) else Lookup(fields,
        LastFailureCategory);
    var effective := GetOr(category, own);
    var count, limit := AsInt(OrZero(Lookup(fields, RetryCount)), t), AsInt(OrZero(Lookup(fields, RetryLimit)), t);
    && Lookup(fields, FailureRetryable) != Bool(false)
    && retryable != []
    && (Truthy(effective) ==> effective in retryable || Text("all") in retryable)
    && count.Some? && limit.Some? && count.value < limit.value
  }

  /** Whether set(blockers) holds "timeout"; None when building the set raises. */
  function BlockersHoldTimeout(v: Value): Option<bool> {
    if !Truthy(v) then Some(false)
    else match v
      case Text(_) => Some(false)
      case List(items) => if exists i :: i in items && !Hashable(i) then None else Some(Text("timeout") in items)
      case Object(fields) => Some("timeout" in fields)
      case _ => None
  }

  function LegacyTimeoutOrigin(fields: Fields, status: Option<Status>): Option<bool> {
    var byCategory := Lookup(fields, FailureCategory) == Text("timeout");
    match status
    case Some(TimedOutStatus) => Some(true)
    case Some(Aborted) | Some(Failed) => Some(byCategory)
    case Some(Blocked) => if byCategory then Some(true) else BlockersHoldTimeout(Lookup(fields, Blockers))
    case _ => Some(false)
  }

  function LegacyTimeoutState(status: Option<Status>, retryAvailable: bool): State {
    match status
    case Some(Blocked) => BlockedTimeout
    case Some(Aborted) => TimeoutAborted
    case Some(Failed) => if retryAvailable then TimeoutFailedRetry else TimeoutFailedTerminal
    case _ => if retryAvailable then TimeoutRetry else TimeoutTerminal
  }

  function ActionNamed(v: Value): Option<Action> {
    if !Truthy(v) then Some(NoAction)
    else if v == Text("start") then Some(Start)
    else if v == Text("wait") then Some(Wait)
    else if v == Text("retry") then Some(Retry)
    else if v == Text("resolve_blocker") then Some(ResolveBlocker)
    else if v == Text("collect") then Some(Collect)
    else if v == Text("none") then Some(NoAction)
    else None
  }

  /** The state with this public status and action that no timeout produced. */
  function StateForPublic(status: Option<Status>, action: Option<Action>): Option<State> {
    if status.None? || action.None? then None
    else match (status.value, action.value)
      case (QueuedStatus, Start) => Some(Queued)
      case (Active, Wait) => Some(ActiveWait)
      case (Active, Retry) => Some(ActiveRetry)
      case (Blocked, ResolveBlocker) => Some(BlockedDependency)
      case (Done, Collect) => Some(DoneCollect)
      case (Aborted, NoAction) => Some(AbortedState)
      case _ => None
  }

  /** The state that stands for a status when the action does not say more. */
  function StateForStatus(status: Status): State {
    match status
    case QueuedStatus => Queued
    case Active => ActiveWait
    case Blocked => BlockedDependency
    case Done => DoneCollect
    case Failed => FailedTerminal
    case TimedOutStatus => TimeoutTerminal
    case Aborted => AbortedState
  }

  /** None when reading the blockers raises. */
  function LegacyState(fields: Fields, t: Texts): Option<State> {
    var status := ShortStatus(Lookup(fields, StatusName), t);
    match LegacyTimeoutOrigin(fields, status)
    case None => None
    case Some(origin) =>
      if origin then Some(LegacyTimeoutState(status, LegacyRetryAvailable(fields, Some(Text("timeout")), t)))
      else if status == Some(Failed) then Some(FailedState(true, LegacyRetryAvailable(fields, None, t)))
      else
        var public := StateForPublic(status, ActionNamed(Lookup(fields, NextActionName)));
        Some(if public.Some? then public.value else if status.Some? then StateForStatus(status.value) else Queued)
  }

  /** The repaired lifecycle state; None when looking it up raises. */
  function RepairedState(fields: Fields, t: Texts): Option<Value> {
    var stored := Lookup(fields, LifecycleName);
    if !Hashable(stored) then None
    else if IsStateName(stored) then Some(stored)
    else match LegacyState(fields, t)
      case None => None
      case Some(s) => Some(Text(StateName(s)))
  }

  // ----- Migration, hydration and storage -----

  /** A worker takes the id it is stored under; under an empty one it keeps its own, as a text, if it has any. */
  function Identified(fields: Fields, key: string, t: Texts): Fields {
    if key != "" then fields[Id := Text(key)]
    else if Id !in fields || NonEmptyText(fields[Id]) then fields
    else if !Truthy(fields[Id]) then fields - {Id}
    else fields[Id := Text(t.shown(fields[Id]))]
  }

  function Repaired(raw: Fields, key: string, state: Value, t: Texts): Fields {
    Identified(raw, key, t)[LifecycleName := state] - PUBLIC
  }

  function CoercedAll(fields: Fields, t: Texts): Fields {
    map f | f in fields :: Coerced(KindOf(f), fields[f], t)
  }

  /** Some field that is coerced holds a number whose coercion raises. */
  predicate SomeOverflows(fields: Fields, t: Texts) {
    exists f :: f in fields && Overflows(KindOf(f), fields[f], t)
  }

  function Migrated(raw: Fields, key: string, t: Texts): Option<Fields> {
    match RepairedState(Identified(raw, key, t), t)
    case None => None
    case Some(state) =>
      var repaired := Repaired(raw, key, state, t);
      if SomeOverflows(repaired, t) then None else Some(CoercedAll(repaired, t))
  }

  function Runtime(fields: Fields): Fields {
    map f | f in fields && IsCanonical(f) :: fields[f]
  }

  function Unknown(fields: Fields): Fields {
    map f | f in fields && !IsCanonical(f) :: fields[f]
  }

  function DefaultOf(f: FieldName, key: string): Value {
    match KindOf(f)
    case IdKind => Text(key)
    case IntKind => Int(0)
    case ListKind => List([])
    case PolicyKind => Text("timeout")
    case LifecycleKind => Text("queued")
    case SecondsKind | AnyKind => Null
  }

  function Defaults(key: string): Fields {
    map f | f in RequiredFields() :: DefaultOf(f, key)
  }

  /** The hydrated worker as its snapshot; None when the raw snapshot, or a worker without any id, makes it raise. */
  function Hydrated(raw: Fields, key: string, t: Texts): Option<Fields> {
    match Migrated(raw, key, t)
    case None => None
    case Some(fields) => if Truthy(Lookup(fields, Id)) then Some(Defaults(key) + Runtime(fields)) else None
  }

  /** What is stored for a hydrated worker over what was persisted before it. */
  function Stored(w: Fields, key: string, persisted: Option<Fields>, t: Texts): Option<Fields> {
    var runtime := if key != "" then w[Id := Text(key)] else w;
    if persisted.None? then Some(runtime)
    else match Migrated(persisted.value, key, t)
      case None => None
      case Some(fields) => Some(runtime + Unknown(fields))
  }

  // ----- The migration, edited in place -----

  function CoercedOn(fields: Fields, names: seq<FieldName>, t: Texts): Fields {
    map f | f in fields :: if f in names then Coerced(KindOf(f), fields[f], t) else fields[f]
  }

  class PersistedWorker {
    var fields: Fields

    constructor (raw: Fields)
      ensures fields == raw
    {
      fields := raw;
    }

    method RepairIdentity(key: string, t: Texts)
      modifies this
      ensures fields == Identified(old(fields), key, t)
    {
      if key != "" {
        fields := fields[Id := Text(key)];
      } else if Id in fields && !Truthy(fields[Id]) {
        fields := fields - {Id};
      } else if Id in fields && !fields[Id].Text? {
        fields := fields[Id := Text(t.shown(fields[Id]))];
      }
    }

    method RepairLifecycle(t: Texts) returns (ok: bool)
      modifies this
      ensures ok <==> RepairedState(old(fields), t).Some?
      ensures fields == if ok then old(fields)[LifecycleName := RepairedState(old(fields), t).value] else old(fields)
    {
      var stored := Lookup(fields, LifecycleName);
      if !Hashable(stored) { return false; }
      if IsStateName(stored) {
        assert fields[LifecycleName := stored] == fields;
        return true;
      }
      var state := LegacyState(fields, t);
      if state.None? { return false; }
      fields := fields[LifecycleName := Text(StateName(state.value))];
      return true;
    }

    method RemovePublicState()
      modifies this
      ensures fields == old(fields) - PUBLIC
    {
      fields := fields - {StatusName};
      fields := fields - {NextActionName};
    }

    /** Coerces the named fields in order; raises (ok is false) at the first one that overflows. */
    method CoerceFields(names: seq<FieldName>, t: Texts) returns (ok: bool)
      requires NoDuplicates(names)
      modifies this
      ensures ok <==> !OverflowsOn(old(fields), names, t)
      ensures ok ==> fields == CoercedOn(old(fields), names, t)
    {
      hide Coerced, KindOf, Overflows;
      for i := 0 to |names|
        invariant !OverflowsOn(old(fields), names[..i], t)
        invariant fields == CoercedOn(old(fields), names[..i], t)
      {
        var f := names[i];
        assert f !in names[..i];
        assert names[..i + 1] == names[..i] + [f];
        if f in fields {
          if Overflows(KindOf(f), fields[f], t) {
            assert f in names && old(fields)[f] == fields[f];
            return false;
          }
          fields := fields[f := Coerced(KindOf(f), fields[f], t)];
        }
      }
      assert names[..|names|] == names;
      return true;
    }

    method Migrate(key: string, t: Texts) returns (ok: bool)
      modifies this
      ensures ok <==> Migrated(old(fields), key, t).Some?
      ensures ok ==> fields == Migrated(old(fields), key, t).value
    {
      hide Identified, RepairedState, CoercedOn, CoercedAll, OverflowsOn, SomeOverflows;
      RepairIdentity(key, t);
      ok := RepairLifecycle(t);
      if !ok { return; }
      RemovePublicState();
      ghost var repaired := fields;
      OverflowsSomewhere(repaired, t);
      ok := CoerceFields(INT_FIELDS, t);
      if !ok { return; }
      ok := CoerceFields(LIST_FIELDS, t);
      if !ok { return; }
      ok := CoerceFields(SECONDS_FIELDS, t);
      if !ok { return; }
      ok := CoerceFields(POLICY_FIELDS, t);
      CoercionsCompose(repaired, t);
    }
  }

  predicate OverflowsOn(fields: Fields, names: seq<FieldName>, t: Texts) {
    exists f :: f in names && f in fields && Overflows(KindOf(f), fields[f], t)
  }

  /** Coercing one list of fields neither hides nor causes an overflow in another, and only two lists can overflow. */
  lemma OverflowsSomewhere(fields: Fields, t: Texts)
    ensures var a := CoercedOn(fields, INT_FIELDS, t); var b := CoercedOn(a, LIST_FIELDS, t);
            var c := CoercedOn(b, SECONDS_FIELDS, t);
            && !OverflowsOn(a, LIST_FIELDS, t) && !OverflowsOn(c, POLICY_FIELDS, t)
            && (SomeOverflows(fields, t) <==> OverflowsOn(fields, INT_FIELDS, t) || OverflowsOn(b, SECONDS_FIELDS, t))
  {
    hide Coerced, IntOverflows, SecondsOverflow;
    var a := CoercedOn(fields, INT_FIELDS, t);
    var b := CoercedOn(a, LIST_FIELDS, t);
    forall f: FieldName
      ensures f in INT_FIELDS <==> KindOf(f) == IntKind
      ensures f in LIST_FIELDS <==> KindOf(f) == ListKind
      ensures f in SECONDS_FIELDS <==> KindOf(f) == SecondsKind
      ensures f in POLICY_FIELDS <==> KindOf(f) == PolicyKind
    {
      FieldLists(f);
    }
    forall f | f in fields && KindOf(f) == SecondsKind ensures f in b && b[f] == fields[f] { }
  }

  lemma CoercionsCompose(fields: Fields, t: Texts)
    ensures CoercedOn(CoercedOn(CoercedOn(CoercedOn(fields, INT_FIELDS, t), LIST_FIELDS, t), SECONDS_FIELDS, t),
            POLICY_FIELDS, t)
            == CoercedAll(fields, t)
  {
    hide StorageInt, StorageSeconds, StoragePolicy;
    var a := CoercedOn(fields, INT_FIELDS, t);
    var b := CoercedOn(a, LIST_FIELDS, t);
    var c := CoercedOn(b, SECONDS_FIELDS, t);
    var d := CoercedOn(c, POLICY_FIELDS, t);
    forall f | f in fields ensures d[f] == Coerced(KindOf(f), fields[f], t) {
      FieldLists(f);
    }
  }

  lemma FieldLists(f: FieldName)
    ensures f in INT_FIELDS <==> KindOf(f) == IntKind
    ensures f in LIST_FIELDS <==> KindOf(f) == ListKind
    ensures f in SECONDS_FIELDS <==> KindOf(f) == SecondsKind
    ensures f in POLICY_FIELDS <==> KindOf(f) == PolicyKind
  {
  }
}
