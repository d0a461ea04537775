/** What the worker codec guarantees: canonical results, round trips, idempotence, and fields it does not know. */
module StorageLaws {
  import opened Common
  import opened Lifecycle
  import opened Json
  import opened Storage

  predicate CanonicalValue(f: FieldName, v: Value, key: string, t: Texts) {
    match KindOf(f)
    case IdKind => if key != "" then v == Text(key) else NonEmptyText(v)
    case IntKind => v.Int?
    case ListKind => v.List?
    case SecondsKind =>
      || v == Null
      || (v.Int? && v.n > 0 && t.fits(v.n))
      || (v.Float? && v.r > 0.0 && !Infinite(v.r, t) && v.r != v.r.Floor as real)
    case PolicyKind => IsPolicyName(v)
    case LifecycleKind => IsStateName(v)
    case AnyKind => true
  }

  /** What hydrated workers look like: the constructor of the record accepts exactly these fields. */
  ghost predicate Canonical(w: Fields, key: string, t: Texts) {
    RequiredFields() <= w.Keys && forall f :: f in w ==> IsCanonical(f) && CanonicalValue(f, w[f], key, t)
  }

  /** Only empty values are shown as an empty text. */
  ghost predicate ShowsValues(t: Texts) {
    forall v :: Truthy(v) ==> t.shown(v) != ""
  }

  /** The runtime shows values, and leaves the words of the timeout policies as they are. */
  ghost predicate Lawful(t: Texts) {
    ShowsValues(t) && forall p: TimeoutPolicy :: t.canon(Text(PolicyName(p))) == PolicyName(p)
  }

  lemma PositiveSecondsOk(r: real, t: Texts)
    ensures CanonicalValue(TimeoutSeconds, PositiveSeconds(r, t), "", t)
  {
  }

  lemma PolicyOk(v: Value, t: Texts)
    ensures IsPolicyName(StoragePolicy(v, t))
  {
    assert PolicyName(PolicyTimeout) == "timeout" && PolicyName(PolicyBlocked) == "blocked";
    assert PolicyName(PolicyFailed) == "failed" && PolicyName(PolicyAborted) == "aborted";
  }

  lemma CoercedOk(f: FieldName, v: Value, key: string, t: Texts)
    requires f == Id ==> CanonicalValue(Id, v, key, t)
    requires f == LifecycleName ==> IsStateName(v)
    requires !Overflows(KindOf(f), v, t)
    ensures CanonicalValue(f, Coerced(KindOf(f), v, t), key, t)
  {
    hide IsPolicyName, IsStateName, StoragePolicy, PositiveSeconds, StorageInt;
    PolicyOk(v, t);
    if v.Float? { PositiveSecondsOk(v.r, t); }
    if v.Text? && t.toFloat(v.text).Some? { PositiveSecondsOk(t.toFloat(v.text).value, t); }
    match KindOf(f) {
      case IdKind =>
      case IntKind =>
      case ListKind =>
      case SecondsKind =>
      case PolicyKind =>
      case LifecycleKind =>
      case AnyKind =>
    }
  }

  lemma RepairedStateOk(fields: Fields, t: Texts)
    ensures RepairedState(fields, t).Some? ==> IsStateName(RepairedState(fields, t).value)
  {
    hide LegacyState, StateName;
  }

  lemma DefaultsOk(f: FieldName, key: string, t: Texts)
    requires f in RequiredFields() && f != Id
    ensures IsCanonical(f) && CanonicalValue(f, DefaultOf(f, key), key, t)
  {
    assert PolicyName(PolicyTimeout) == "timeout" && StateName(Queued) == "queued";
    hide StateName, PolicyName;
  }

  lemma IdIsKept(fields: Fields, t: Texts)
    ensures Lookup(CoercedAll(fields, t), Id) == Lookup(fields, Id)
    ensures Id !in PUBLIC && LifecycleName !in PUBLIC
  {
  }

  lemma IdentifiedOk(raw: Fields, key: string, t: Texts)
    ensures var based := Identified(raw, key, t);
            && (Truthy(Lookup(based, Id)) ==> Id in based && CanonicalValue(Id, based[Id], key, t))
            && (ShowsValues(t) && Id in based ==> Truthy(based[Id]))
            && (key != "" || ShowsValues(t) ==> (Truthy(Lookup(based, Id)) <==> key != "" || Truthy(Lookup(raw, Id))))
            && (forall f :: f != Id ==> Lookup(based, f) == Lookup(raw, f) && (f in based <==> f in raw))
  {
  }

  /** Whatever was persisted, hydration yields a canonical worker or raises. */
  lemma HydratedIsCanonical(raw: Fields, key: string, t: Texts)
    ensures Hydrated(raw, key, t).Some? ==> Canonical(Hydrated(raw, key, t).value, key, t)
  {
    hide Coerced, KindOf, RepairedState, CanonicalValue, IsCanonical, DefaultOf, IsStateName, RequiredFields, Overflows,
         Identified;
    var based := Identified(raw, key, t);
    RepairedStateOk(based, t);
    if Hydrated(raw, key, t).Some? {
      var repaired := Repaired(raw, key, RepairedState(based, t).value, t);
      IdIsKept(repaired, t);
      IdentifiedOk(raw, key, t);
      forall f | f in repaired ensures CanonicalValue(f, Coerced(KindOf(f), repaired[f], t), key, t) {
        CoercedOk(f, repaired[f], key, t);
      }
      forall f | f in RequiredFields() && f != Id
        ensures IsCanonical(f) && CanonicalValue(f, DefaultOf(f, key), key, t)
      {
        DefaultsOk(f, key, t);
      }
      IdentityIsRequired();
    }
  }

  // ----- What hydration makes of each field -----

  /** A stored count: an integer stays, a float loses its fraction, a text is parsed, and anything else counts as
      zero. */
  predicate CountRead(stored: Option<Value>, n: int, t: Texts) {
    if stored.None? then n == 0
    else match stored.value
      case Int(k) => n == k
      case Bool(flag) => n == if flag then 1 else 0
      case Float(r) => if r >= 0.0 then n as real <= r < n as real + 1.0 else n as real - 1.0 < r <= n as real
      case Text(text) => n == if text == "" then 0 else GetOr(t.toInt(text), 0)
      case Null | List(_) | Object(_) => n == 0
  }

  /** Positive seconds within the floats, whole ones as an integer; anything else is no timeout. */
  predicate DurationRead(r: real, v: Value, t: Texts) {
    if r > 0.0 && !Infinite(r, t)
    then (v.Int? && v.n as real == r) || (v == Float(r) && r != r.Floor as real)
    else v == Null
  }

  predicate SecondsRead(stored: Option<Value>, v: Value, t: Texts) {
    if stored.None? then v == Null
    else match stored.value
      case Int(n) => v == if n > 0 then Int(n) else Null
      case Float(r) => DurationRead(r, v, t)
      case Text(text) => if t.toFloat(text).Some? then DurationRead(t.toFloat(text).value, v, t) else v == Null
      case Null | Bool(_) | List(_) | Object(_) => v == Null
  }

  /** A stored policy is read as a status; what is no policy times out. */
  predicate PolicyRead(stored: Option<Value>, v: Value, t: Texts) {
    var status := if stored.Some? then ShortStatus(stored.value, t) else None;
    v == if status == Some(Blocked) then Text("blocked")
         else if status == Some(Failed) then Text("failed")
         else if status == Some(Aborted) then Text("aborted")
         else Text("timeout")
  }

  predicate IdRead(stored: Option<Value>, key: string, v: Value, t: Texts) {
    if key != "" then v == Text(key)
    else stored.Some? && Truthy(stored.value) && v == if stored.value.Text? then stored.value
                                                      else Text(t.shown(stored.value))
  }

  /** What a field of a hydrated worker is, given what was stored for it. */
  predicate FieldRead(f: FieldName, stored: Option<Value>, key: string, v: Value, t: Texts) {
    match f
    case Id => IdRead(stored, key, v, t)
    case RetryCount | RetryLimit => v.Int? && CountRead(stored, v.n, t)
    case TimeoutSeconds => SecondsRead(stored, v, t)
    case TimeoutPolicyName => PolicyRead(stored, v, t)
    case Dependencies | PromptIds | RetryableFailures | Blockers | OutputRefs | Attempts =>
      v == if stored.Some? && stored.value.List? then stored.value else List([])
    case LifecycleName => IsStateName(v) && (stored.Some? && IsStateName(stored.value) ==> v == stored.value)
    case _ => v == GetOr(stored, Null)
  }

  lemma TruncatedIs(r: real)
    ensures var n := Truncated(r);
            if r >= 0.0 then n as real <= r < n as real + 1.0 else n as real - 1.0 < r <= n as real
  {
  }

  lemma CountIsRead(v: Value, t: Texts)
    requires !IntOverflows(v, t)
    ensures CountRead(Some(v), StorageInt(v, t), t)
  {
    hide Truncated;
    if v.Float? { TruncatedIs(v.r); TruncatedIs(0.0); }
  }

  lemma DurationIsRead(r: real, t: Texts)
    ensures DurationRead(r, PositiveSeconds(r, t), t)
  {
    hide Infinite;
  }

  lemma SecondsAreRead(v: Value, t: Texts)
    ensures SecondsRead(Some(v), StorageSeconds(v, t), t)
  {
    hide PositiveSeconds, DurationRead;
    if v.Float? { DurationIsRead(v.r, t); }
    if v.Text? && t.toFloat(v.text).Some? { DurationIsRead(t.toFloat(v.text).value, t); }
  }

  /** A stored field that is coerced. */
  lemma StoredIsRead(f: FieldName, v: Value, key: string, t: Texts)
    requires f != Id && f != LifecycleName && IsCanonical(f) && !Overflows(KindOf(f), v, t)
    ensures FieldRead(f, Some(v), key, Coerced(KindOf(f), v, t), t)
  {
    hide StorageInt, StorageSeconds, CountRead, SecondsRead, IsStateName, ShortStatus, IdRead;
    if f.RetryCount? || f.RetryLimit? { CountIsRead(v, t); }
    if f.TimeoutSeconds? { SecondsAreRead(v, t); }
  }

  lemma MissingIsRead(f: FieldName, key: string, t: Texts)
    requires f in RequiredFields() && f != Id && f != LifecycleName
    ensures FieldRead(f, None, key, DefaultOf(f, key), t)
  {
    hide IsStateName;
  }

  function StoredFor(raw: Fields, f: FieldName): Option<Value> {
    if f in raw then Some(raw[f]) else None
  }

  /** The id and the state, which are repaired first. */
  lemma RepairedIsRead(raw: Fields, key: string, t: Texts)
    requires Hydrated(raw, key, t).Some?
    ensures var w := Hydrated(raw, key, t).value;
            && Id in w && FieldRead(Id, StoredFor(raw, Id), key, w[Id], t)
            && LifecycleName in w && FieldRead(LifecycleName, StoredFor(raw, LifecycleName), key, w[LifecycleName], t)
  {
    hide LegacyState, StateName, SomeOverflows, IsStateName, RequiredFields, Coerced, Defaults;
    IdentityIsRequired();
    IdentifiedOk(raw, key, t);
    RepairedStateOk(Identified(raw, key, t), t);
    var state := RepairedState(Identified(raw, key, t), t).value;
    IdIsKept(Repaired(raw, key, state, t), t);
    MigratedState(Repaired(raw, key, state, t), t);
    NullIsNoState();
  }

  lemma MigratedFieldIs(raw: Fields, key: string, t: Texts, f: FieldName)
    requires Hydrated(raw, key, t).Some? && f != Id && f != LifecycleName && IsCanonical(f)
    ensures var w := Hydrated(raw, key, t).value;
            && (f in w <==> f in raw || f in RequiredFields())
            && (f in raw ==> w[f] == Coerced(KindOf(f), raw[f], t) && !Overflows(KindOf(f), raw[f], t))
            && (f !in raw && f in RequiredFields() ==> w[f] == DefaultOf(f, key))
  {
    hide RepairedState, Coerced, KindOf, Overflows, DefaultOf, RequiredFields, Truthy, Identified, CanonicalValue;
    IdentifiedOk(raw, key, t);
    var state := RepairedState(Identified(raw, key, t), t).value;
    var repaired := Repaired(raw, key, state, t);
    PublicIsNotCanonical();
    assert f in repaired <==> f in raw;
    assert f in raw ==> repaired[f] == Lookup(raw, f);
  }

  /** Hydration yields the required and the canonical stored fields, each read as its name says: counts, seconds,
      policies and lists are coerced, missing ones take their default, and everything else stays. */
  lemma HydratedFields(raw: Fields, key: string, t: Texts, f: FieldName)
    requires Hydrated(raw, key, t).Some?
    ensures var w := Hydrated(raw, key, t).value;
            && (f in w <==> f in RequiredFields() || (f in raw && IsCanonical(f)))
            && (f in w ==> FieldRead(f, StoredFor(raw, f), key, w[f], t))
  {
    hide Hydrated, FieldRead, RequiredFields, CanonicalValue, Coerced, DefaultOf, KindOf, Overflows, IsCanonical;
    HydratedIsCanonical(raw, key, t);
    RepairedIsRead(raw, key, t);
    IdentityIsRequired();
    RequiredIsCanonical(f);
    if f != Id && f != LifecycleName && IsCanonical(f) {
      MigratedFieldIs(raw, key, t, f);
      if f in raw { StoredIsRead(f, raw[f], key, t); }
      if f !in raw && f in RequiredFields() { MissingIsRead(f, key, t); }
    }
  }

  lemma RequiredIsCanonical(f: FieldName)
    ensures f in RequiredFields() ==> IsCanonical(f)
  {
  }

  /** Blockers that cannot be put into a set. */
  predicate BadBlockers(v: Value) {
    || ((v.Bool? || v.Int? || v.Float?) && Truthy(v))
    || (v.List? && exists i :: i in v.items && !Hashable(i))
  }

  /** The lifecycle state can neither be looked up nor derived. */
  predicate BadState(raw: Fields, t: Texts) {
    var state := Lookup(raw, LifecycleName);
    || !Hashable(state)
    || (!IsStateName(state) && ShortStatus(Lookup(raw, StatusName), t) == Some(Blocked)
        && Lookup(raw, FailureCategory) != Text("timeout") && BadBlockers(Lookup(raw, Blockers)))
  }

  /** Hydration raises exactly on a lifecycle state that is a list or an object; on a snapshot without a known lifecycle
      state that claims to be blocked, not by a timeout category, with blockers that make no set; on timeout seconds
      that are an integer beyond the floats; on an infinite retry count or limit; and on a worker that neither the name
      it is stored under nor its own field gives an id. */
  lemma HydrationRaisesIff(raw: Fields, key: string, t: Texts)
    requires key == "" ==> ShowsValues(t)
    ensures Hydrated(raw, key, t).None? <==>
            || BadState(raw, t)
            || SecondsOverflow(Lookup(raw, TimeoutSeconds), t)
            || IntOverflows(Lookup(raw, RetryCount), t)
            || IntOverflows(Lookup(raw, RetryLimit), t)
            || (key == "" && !Truthy(Lookup(raw, Id)))
  {
    hide Coerced, RepairedState, BadState, SecondsOverflow, IntOverflows, Identified, CoercedAll, CanonicalValue;
    StateRaisesIff(raw, key, t);
    IdentifiedOk(raw, key, t);
    TextIsTruthy(key);
    var state := RepairedState(Identified(raw, key, t), t);
    if state.Some? {
      OverflowIff(raw, key, state.value, t);
      IdIsKept(Repaired(raw, key, state.value, t), t);
    }
  }

  lemma TextIsTruthy(text: string)
    ensures Truthy(Text(text)) <==> text != ""
  {
  }

  lemma StateRaisesIff(raw: Fields, key: string, t: Texts)
    ensures RepairedState(Identified(raw, key, t), t).None? <==> BadState(raw, t)
  {
    hide ShortStatus, IsStateName, LegacyRetryAvailable, StateForPublic, ActionNamed, StateName, Identified, Lookup,
         CanonicalValue;
    IdentifiedOk(raw, key, t);
    BlockersRaiseIff(Lookup(raw, Blockers));
  }

  lemma OverflowIff(raw: Fields, key: string, state: Value, t: Texts)
    ensures SomeOverflows(Repaired(raw, key, state, t), t) <==>
            || SecondsOverflow(Lookup(raw, TimeoutSeconds), t)
            || IntOverflows(Lookup(raw, RetryCount), t)
            || IntOverflows(Lookup(raw, RetryLimit), t)
  {
    hide Overflows, KindOf, Repaired, SecondsOverflow, IntOverflows;
    var repaired := Repaired(raw, key, state, t);
    OverflowAt(raw, key, state, TimeoutSeconds, t);
    OverflowAt(raw, key, state, RetryCount, t);
    OverflowAt(raw, key, state, RetryLimit, t);
    forall f | f in repaired && Overflows(KindOf(f), repaired[f], t)
      ensures f == TimeoutSeconds || f == RetryCount || f == RetryLimit
    {
      OnlyNumbersOverflow(f, repaired[f], t);
    }
  }

  lemma OverflowAt(raw: Fields, key: string, state: Value, f: FieldName, t: Texts)
    requires f == TimeoutSeconds || f == RetryCount || f == RetryLimit
    ensures var repaired := Repaired(raw, key, state, t); var v := Lookup(raw, f);
            f in repaired && Overflows(KindOf(f), repaired[f], t) <==>
            if f == TimeoutSeconds then SecondsOverflow(v, t) else IntOverflows(v, t)
  {
    hide Infinite;
  }

  lemma OnlyNumbersOverflow(f: FieldName, v: Value, t: Texts)
    ensures Overflows(KindOf(f), v, t) ==> f == TimeoutSeconds || f == RetryCount || f == RetryLimit
  {
    hide IntOverflows, SecondsOverflow;
  }

  function Power(base: int, n: nat): int {
    if n == 0 then 1 else base * Power(base, n - 1)
  }

  const QUEUED_STATE: Fields := map[LifecycleName := Text("queued")]

  /** One snapshot for each way in which hydration raises, on a runtime whose floats end before ten to the 400th;
      timeout seconds that are that large but written as a float are repaired, and so is a missing id. */
  lemma SnapshotsThatRaise(key: string, t: Texts)
    requires !t.fits(Power(10, 400)) && t.canon(Text("blocked")) == "blocked" && ShowsValues(t) && key != ""
    ensures Hydrated(QUEUED_STATE, "", t).None? && Hydrated(QUEUED_STATE, key, t).Some?
    ensures Hydrated(map[LifecycleName := List([])], key, t).None?
    ensures Hydrated(map[StatusName := Text("blocked"), Blockers := List([Object(map[])])], key, t).None?
    ensures Hydrated(QUEUED_STATE[TimeoutSeconds := Int(Power(10, 400))], key, t).None?
    ensures Hydrated(QUEUED_STATE[RetryCount := Float(Power(10, 400) as real)], key, t).None?
    ensures Hydrated(QUEUED_STATE[RetryLimit := Float(Power(10, 400) as real)], key, t).None?
    ensures Hydrated(QUEUED_STATE[TimeoutSeconds := Float(Power(10, 400) as real)], key, t).Some?
  {
    hide Hydrated, Power, ShowsValues;
    var large := Power(10, 400);
    HydrationRaisesIff(QUEUED_STATE, "", t);
    HydrationRaisesIff(QUEUED_STATE, key, t);
    HydrationRaisesIff(map[LifecycleName := List([])], key, t);
    RaisingBlockers(key, t);
    HydrationRaisesIff(QUEUED_STATE[TimeoutSeconds := Int(large)], key, t);
    HydrationRaisesIff(QUEUED_STATE[RetryCount := Float(large as real)], key, t);
    HydrationRaisesIff(QUEUED_STATE[RetryLimit := Float(large as real)], key, t);
    HydrationRaisesIff(QUEUED_STATE[TimeoutSeconds := Float(large as real)], key, t);
    assert IsStateName(Text("queued")) by { assert StateName(Queued) == "queued"; }
  }

  lemma RaisingBlockers(key: string, t: Texts)
    requires t.canon(Text("blocked")) == "blocked" && ShowsValues(t)
    ensures Hydrated(map[StatusName := Text("blocked"), Blockers := List([Object(map[])])], key, t).None?
  {
    hide Hydrated;
    var raw: Fields := map[StatusName := Text("blocked"), Blockers := List([Object(map[])])];
    HydrationRaisesIff(raw, key, t);
    var blockers := Lookup(raw, Blockers);
    assert blockers.items[0] in blockers.items && !Hashable(blockers.items[0]);
    assert t.canon(Lookup(raw, StatusName)) == "blocked";
    NullIsNoState();
  }

  lemma NullIsNoState()
    ensures !IsStateName(Null)
  {
  }

  lemma BlockersRaiseIff(v: Value)
    ensures BlockersHoldTimeout(v).None? <==> BadBlockers(v)
  {
  }

  // ----- Round trip and idempotence -----

  lemma PolicyKept(v: Value, t: Texts)
    requires Lawful(t) && IsPolicyName(v)
    ensures StoragePolicy(v, t) == v
  {
    var p: TimeoutPolicy :| v == Text(PolicyName(p));
    assert t.canon(v) == PolicyName(p);
    match p {
      case PolicyTimeout =>
      case PolicyBlocked =>
      case PolicyFailed =>
      case PolicyAborted =>
    }
  }

  lemma CoercedKept(f: FieldName, v: Value, key: string, t: Texts)
    requires Lawful(t) && CanonicalValue(f, v, key, t)
    ensures Coerced(KindOf(f), v, t) == v
  {
    hide StoragePolicy, IsPolicyName, IsStateName, Lawful;
    if KindOf(f) == PolicyKind { PolicyKept(v, t); }
  }

  lemma CanonicalNeverOverflows(f: FieldName, v: Value, key: string, t: Texts)
    requires CanonicalValue(f, v, key, t)
    ensures !Overflows(KindOf(f), v, t)
  {
    hide IsPolicyName, IsStateName, Infinite;
  }

  lemma StateKept(fields: Fields, t: Texts)
    requires IsStateName(Lookup(fields, LifecycleName))
    ensures RepairedState(fields, t) == Some(Lookup(fields, LifecycleName))
  {
    hide StateName, LegacyState;
  }

  /** Fields the codec has no name for. */
  function OtherFields(fields: Fields): Fields {
    map f | f in fields && f.OtherField? :: fields[f]
  }

  /** A snapshot whose canonical fields are canonical is a fixed point of migration, up to the public state it drops. */
  lemma MigrationFixes(fields: Fields, key: string, t: Texts)
    requires Lawful(t) && (key != "" ==> Id in fields) && LifecycleName in fields
    requires forall f :: f in fields ==> CanonicalValue(f, fields[f], key, t)
    ensures Migrated(fields, key, t) == Some(fields - PUBLIC)
  {
    hide CanonicalValue, Coerced, KindOf, RepairedState, Lawful, Overflows;
    CanonicalState(fields[LifecycleName], key, t);
    if Id in fields { CanonicalIdentity(fields, key, t); }
    StateKept(fields, t);
    assert fields[LifecycleName := fields[LifecycleName]] == fields;
    forall f | f in fields ensures Coerced(KindOf(f), fields[f], t) == fields[f] { CoercedKept(f, fields[f], key, t); }
    forall f | f in fields ensures !Overflows(KindOf(f), fields[f],
        t) { CanonicalNeverOverflows(f, fields[f], key, t); }
    assert CoercedAll(fields - PUBLIC, t) == fields - PUBLIC;
  }

  lemma CanonicalState(state: Value, key: string, t: Texts)
    requires CanonicalValue(LifecycleName, state, key, t)
    ensures IsStateName(state)
  {
  }

  lemma CanonicalIdentity(fields: Fields, key: string, t: Texts)
    requires Id in fields && CanonicalValue(Id, fields[Id], key, t)
    ensures Identified(fields, key, t) == fields && Truthy(fields[Id])
    ensures key != "" ==> fields[Id := Text(key)] == fields
  {
  }

  lemma MigratedIsCanonical(raw: Fields, key: string, t: Texts)
    requires Migrated(raw, key, t).Some? && ShowsValues(t)
    ensures var m := Migrated(raw, key, t).value;
            && (key != "" ==> Id in m) && LifecycleName in m && m.Keys !! PUBLIC
            && forall f :: f in m ==> CanonicalValue(f, m[f], key, t)
  {
    hide Coerced, KindOf, RepairedState, CanonicalValue, IsStateName, Overflows, Identified, Truthy;
    var based := Identified(raw, key, t);
    RepairedStateOk(based, t);
    IdentifiedOk(raw, key, t);
    var repaired := Repaired(raw, key, RepairedState(based, t).value, t);
    IdIsKept(repaired, t);
    TextIsTruthy(key);
    forall f | f in repaired ensures CanonicalValue(f, Coerced(KindOf(f), repaired[f], t), key, t) {
      CoercedOk(f, repaired[f], key, t);
    }
  }

  /** Migrating twice is migrating once. */
  lemma MigrationIsIdempotent(raw: Fields, key: string, t: Texts)
    requires Lawful(t)
    ensures Migrated(raw, key, t).Some? ==> Migrated(Migrated(raw, key, t).value, key, t) == Migrated(raw, key, t)
  {
    hide Migrated, CanonicalValue, Lawful;
    if Migrated(raw, key, t).Some? {
      var m := Migrated(raw, key, t).value;
      LawfulShows(t);
      MigratedIsCanonical(raw, key, t);
      MigrationFixes(m, key, t);
      assert m - PUBLIC == m;
    }
  }

  lemma LawfulShows(t: Texts)
    requires Lawful(t)
    ensures ShowsValues(t)
  {
  }

  lemma UnknownOfMigrated(raw: Fields, key: string, t: Texts)
    requires Migrated(raw, key, t).Some?
    ensures Unknown(Migrated(raw, key, t).value) == OtherFields(raw)
  {
    hide RepairedState, StorageInt, StorageSeconds, StoragePolicy, Overflows;
  }

  lemma StoredOver(w: Fields, key: string, persisted: Option<Fields>, t: Texts)
    requires Canonical(w, key, t) && (persisted.Some? ==> Migrated(persisted.value, key, t).Some?)
    ensures Stored(w, key, persisted, t) == Some(w + if persisted.Some? then OtherFields(persisted.value) else map[])
  {
    hide Migrated, CanonicalValue, IsCanonical, Unknown, RequiredFields;
    CanonicalId(w, key, t);
    assert w + map[] == w;
    if persisted.Some? { UnknownOfMigrated(persisted.value, key, t); }
  }

  lemma CanonicalId(w: Fields, key: string, t: Texts)
    requires Canonical(w, key, t)
    ensures Id in w && LifecycleName in w && Truthy(w[Id]) && (key != "" ==> w[Id := Text(key)] == w)
  {
    hide RequiredFields, CanonicalValue;
    IdentityIsRequired();
    CanonicalIdentity(w, key, t);
  }

  lemma IdentityIsRequired()
    ensures Id in RequiredFields() && LifecycleName in RequiredFields() && IsCanonical(Id) && IsCanonical(LifecycleName)
  {
  }

  lemma OthersAreOther(fields: Fields)
    ensures forall f :: f in OtherFields(fields) ==> f.OtherField?
  {
  }

  lemma OtherValues(others: Fields, key: string, t: Texts)
    requires forall f :: f in others ==> f.OtherField?
    ensures forall f :: f in others ==> CanonicalValue(f, others[f], key, t) && !IsCanonical(f)
  {
  }

  lemma RuntimeOfStored(w: Fields, others: Fields, key: string, t: Texts)
    requires Canonical(w, key, t) && forall f :: f in others ==> f.OtherField?
    ensures Defaults(key) + Runtime((w + others) - PUBLIC) == w
    ensures OtherFields(w + others) == others
  {
    hide CanonicalValue, DefaultOf, RequiredFields;
    OthersAreUnknown(w, others);
    DefaultsKeys(key);
  }

  lemma DefaultsKeys(key: string)
    ensures Defaults(key).Keys == RequiredFields()
  {
    hide RequiredFields, DefaultOf;
  }

  lemma OthersAreUnknown(w: Fields, others: Fields)
    requires forall f :: f in w ==> IsCanonical(f)
    requires forall f :: f in others ==> f.OtherField?
    ensures Runtime((w + others) - PUBLIC) == w && OtherFields(w + others) == others
  {
  }

  /** Hydrating what was stored gives the worker back, whatever raw snapshot it was stored over. */
  lemma StorageRoundTrip(w: Fields, key: string, persisted: Option<Fields>, t: Texts)
    requires Lawful(t) && Canonical(w, key, t) && (persisted.Some? ==> Migrated(persisted.value, key, t).Some?)
    ensures Stored(w, key, persisted, t).Some? && Hydrated(Stored(w, key, persisted, t).value, key, t) == Some(w)
  {
    hide Migrated, CanonicalValue, Stored, Lawful, Runtime, Defaults, IsCanonical, Truthy, RequiredFields, OtherFields,
         KindOf;
    StoredOver(w, key, persisted, t);
    var others := if persisted.Some? then OtherFields(persisted.value) else map[];
    if persisted.Some? { OthersAreOther(persisted.value); }
    CanonicalId(w, key, t);
    OtherValues(others, key, t);
    MigrationFixes(w + others, key, t);
    RuntimeOfStored(w, others, key, t);
  }

  /** Hydrating a canonical worker changes nothing. */
  lemma CanonicalStays(w: Fields, key: string, t: Texts)
    requires Lawful(t) && Canonical(w, key, t)
    ensures Hydrated(w, key, t) == Some(w)
  {
    hide Hydrated, Canonical, CanonicalValue, RequiredFields;
    StorageRoundTrip(w, key, None, t);
    StoredOver(w, key, None, t);
    assert w + map[] == w;
  }

  // ----- Any number of update cycles -----

  /** Each cycle hydrates what is stored, changes the worker, and stores it over what was there; None when it raises. */
  function Cycled(raw: Fields, key: string, changes: seq<Fields -> Fields>, t: Texts): Option<Fields>
    decreases |changes|
  {
    if changes == [] then Some(raw)
    else match Hydrated(raw, key, t)
      case None => None
      case Some(w) =>
        match Stored(changes[0](w), key, Some(raw), t)
        case None => None
        case Some(next) => Cycled(next, key, changes[1..], t)
  }

  ghost predicate KeepCanonical(changes: seq<Fields -> Fields>, key: string, t: Texts) {
    forall change, w :: change in changes && Canonical(w, key, t) ==> Canonical(change(w), key, t)
  }

  /** Unknown fields survive every number of updates, and a worker that hydrates once always will. */
  lemma {:induction false} UnknownFieldsSurvive(raw: Fields, key: string, changes: seq<Fields -> Fields>, t: Texts)
    requires Lawful(t) && KeepCanonical(changes, key, t) && Hydrated(raw, key, t).Some?
    ensures var last := Cycled(raw, key, changes, t);
            last.Some? && OtherFields(last.value) == OtherFields(raw) && Hydrated(last.value, key, t).Some?
    decreases |changes|
  {
    hide Hydrated, Stored, Canonical, Lawful;
    if changes != [] {
      var w := Hydrated(raw, key, t).value;
      HydratedIsCanonical(raw, key, t);
      assert changes[0] in changes;
      var changed := changes[0](w);
      MigratedWhenHydrated(raw, key, t);
      StorageRoundTrip(changed, key, Some(raw), t);
      StoredOver(changed, key, Some(raw), t);
      RuntimeOfStored(changed, OtherFields(raw), key, t);
      UnknownFieldsSurvive(Stored(changed, key, Some(raw), t).value, key, changes[1..], t);
    }
  }

  lemma MigratedWhenHydrated(raw: Fields, key: string, t: Texts)
    requires Hydrated(raw, key, t).Some?
    ensures Migrated(raw, key, t).Some?
  {
  }

  // ----- Legacy public states -----

  /** A stored number that can be compared; anything empty counts as zero. */
  predicate Counts(v: Value, n: int, t: Texts) {
    match v
    case Null => n == 0
    case Bool(flag) => n == if flag then 1 else 0
    case Int(k) => n == k
    case Float(r) => if r >= 0.0 then n as real <= r < n as real + 1.0 else n as real - 1.0 < r <= n as real
    case Text(text) => if text == "" then n == 0 else t.toInt(text) == Some(n)
    case List(items) => items == [] && n == 0
    case Object(fields) => fields == map[] && n == 0
  }

  /** The failure may be retried: it was not marked otherwise, the worker lists its category or all, and its count is
      below its limit. */
  ghost predicate RetryLeft(fields: Fields, category: Value, t: Texts) {
    && Lookup(fields, FailureRetryable) != Bool(false)
    && Lookup(fields, RetryableFailures).List? && Lookup(fields, RetryableFailures).items != []
    && (Truthy(category) ==>
          category in Lookup(fields, RetryableFailures).items || Text("all") in Lookup(fields, RetryableFailures).items)
    && exists c: int, l: int ::
         Counts(Lookup(fields, RetryCount), c, t) && Counts(Lookup(fields, RetryLimit), l, t) && c < l
  }

  /** The category of the current failure, or else of the last one. */
  function OwnCategory(fields: Fields): Value {
    if Truthy(Lookup(fields, FailureCategory)) then Lookup(fields, FailureCategory)
    else Lookup(fields, LastFailureCategory)
  }

  predicate ListsTimeout(blockers: Value) {
    || (blockers.List? && Text("timeout") in blockers.items)
    || (blockers.Object? && "timeout" in blockers.fields)
  }

  /** The state that a snapshot without one stands for: it shows the stored status, comes from a timeout if the category
      or the blockers say so, may be retried if there is budget left, and waits to retry if the action says so. */
  ghost predicate DerivedAs(fields: Fields, t: Texts, s: State) {
    var status := GetOr(ShortStatus(Lookup(fields, StatusName), t), QueuedStatus);
    var timedOut := Lookup(fields, FailureCategory) == Text("timeout");
    && PublicStatus(s) == status
    && (Table(s).timeoutOrigin <==>
          || status == TimedOutStatus
          || (timedOut && status in {Blocked, Failed, Aborted})
          || (status == Blocked && ListsTimeout(Lookup(fields, Blockers))))
    && (status == Failed || status == TimedOutStatus ==>
          (Table(s).retryable <==>
             RetryLeft(fields, if Table(s).timeoutOrigin then Text("timeout") else OwnCategory(fields), t)))
    && (status == Active ==> (s == ActiveRetry <==> Lookup(fields, NextActionName) == Text("retry")))
  }

  lemma CountsIff(v: Value, n: int, t: Texts)
    ensures AsInt(OrZero(v), t) == Some(n) <==> Counts(v, n, t)
  {
    hide Truncated;
    if v.Float? {
      TruncatedIs(v.r);
      ZeroTruncates();
      if Truthy(v) && Counts(v, n, t) { IntegerPart(v.r, n, Truncated(v.r)); }
      if !Truthy(v) && Counts(v, n, t) { IntegerPart(0.0, n, 0); }
    }
  }

  lemma ZeroTruncates()
    ensures Truncated(0.0) == 0
  {
  }

  lemma IntegerPart(r: real, a: int, b: int)
    requires if r >= 0.0 then a as real <= r < a as real + 1.0 else a as real - 1.0 < r <= a as real
    requires if r >= 0.0 then b as real <= r < b as real + 1.0 else b as real - 1.0 < r <= b as real
    ensures a == b
  {
  }

  lemma RetryLeftIff(fields: Fields, category: Option<Value>, t: Texts)
    ensures LegacyRetryAvailable(fields, category, t) <==> RetryLeft(fields, GetOr(category, OwnCategory(fields)), t)
  {
    hide Counts, AsInt, OrZero, Truthy;
    var rc, rl := Lookup(fields, RetryCount), Lookup(fields, RetryLimit);
    forall n ensures AsInt(OrZero(rc), t) == Some(n) <==> Counts(rc, n, t) { CountsIff(rc, n, t); }
    forall n ensures AsInt(OrZero(rl), t) == Some(n) <==> Counts(rl, n, t) { CountsIff(rl, n, t); }
  }

  lemma HoldsTimeoutIff(v: Value)
    ensures BlockersHoldTimeout(v).Some? ==> (BlockersHoldTimeout(v).value <==> ListsTimeout(v))
  {
  }

  lemma ActionsNamed(v: Value)
    ensures ActionNamed(v) == Some(Retry) <==> v == Text("retry")
  {
  }

  /** What the derived state is. */
  lemma LegacyStateIs(fields: Fields, t: Texts)
    requires LegacyState(fields, t).Some?
    ensures DerivedAs(fields, t, LegacyState(fields, t).value)
  {
    hide ShortStatus, LegacyRetryAvailable, ActionNamed, BlockersHoldTimeout, RetryLeft, ListsTimeout, OwnCategory;
    HoldsTimeoutIff(Lookup(fields, Blockers));
    ActionsNamed(Lookup(fields, NextActionName));
    RetryLeftIff(fields, Some(Text("timeout")), t);
    RetryLeftIff(fields, None, t);
  }

  /** The description leaves no choice. */
  lemma DerivedOnce(fields: Fields, t: Texts, a: State, b: State)
    requires DerivedAs(fields, t, a) && DerivedAs(fields, t, b)
    ensures a == b
  {
    hide ShortStatus, RetryLeft, ListsTimeout, OwnCategory;
  }

  /** How a worker was stored before lifecycle states were: with its public status and action instead of its state. */
  function LegacyForm(w: Fields, status: Value, action: Value): Fields {
    (w - {LifecycleName})[StatusName := status][NextActionName := action]
  }

  lemma LegacyKeys(w: Fields, status: Value, action: Value, state: Value)
    requires Id in w && StatusName !in w && NextActionName !in w
    ensures var legacy := LegacyForm(w, status, action);
            Id in legacy && legacy[Id] == w[Id] && Lookup(legacy, LifecycleName) == Null
            && legacy[LifecycleName := state] - PUBLIC == w[LifecycleName := state] - PUBLIC
  {
  }

  lemma PublicIsNotCanonical()
    ensures !IsCanonical(StatusName) && !IsCanonical(NextActionName)
  {
  }

  /** A canonical worker that was stored with its public status and action only is hydrated unchanged, provided that its
      fields tell its state, and its blockers can be looked through. */
  lemma LegacyRoundTrip(w: Fields, key: string, status: Value, action: Value, t: Texts, s: State)
    requires Lawful(t) && Canonical(w, key, t) && w[LifecycleName] == Text(StateName(s))
    requires DerivedAs(LegacyForm(w, status, action), t, s) && !BadState(LegacyForm(w, status, action), t)
    ensures Hydrated(LegacyForm(w, status, action), key, t) == Some(w)
  {
    hide DerivedAs, Lawful, CanonicalValue, RequiredFields, LegacyForm, LegacyState, Lookup, CoercedAll, SomeOverflows,
         Defaults, Runtime, Truthy, IsCanonical, BadState;
    var legacy := LegacyForm(w, status, action);
    CanonicalId(w, key, t);
    PublicIsNotCanonical();
    LegacyKeys(w, status, action, Text(StateName(s)));
    CanonicalIdentity(w, key, t);
    CanonicalIdentity(legacy, key, t);
    NullIsNoState();
    StateRaisesIff(legacy, key, t);
    LegacyStateIs(legacy, t);
    DerivedOnce(legacy, t, LegacyState(legacy, t).value, s);
    StateIsLookedUp(w, s);
    StateKept(w, t);
    CanonicalStays(w, key, t);
  }

  lemma StateIsLookedUp(w: Fields, s: State)
    requires LifecycleName in w && w[LifecycleName] == Text(StateName(s))
    ensures Lookup(w, LifecycleName) == w[LifecycleName] && IsStateName(w[LifecycleName])
    ensures w[LifecycleName := w[LifecycleName]] == w
  {
  }

  /** Hydrating a snapshot without a known lifecycle state yields a worker in the state that its status, category,
      blockers, action and budget stand for. */
  lemma HydrationDerives(raw: Fields, key: string, t: Texts) returns (s: State)
    requires Hydrated(raw, key, t).Some? && !IsStateName(Lookup(raw, LifecycleName))
    ensures Lookup(Hydrated(raw, key, t).value, LifecycleName) == Text(StateName(s))
    ensures DerivedAs(raw, t, s)
  {
    hide LegacyState, Identified, StateName, IsStateName, CanonicalValue, DerivedAs, Lookup, Hydrated;
    var based := Identified(raw, key, t);
    IdentifiedOk(raw, key, t);
    MigratedWhenHydrated(raw, key, t);
    s := LegacyState(based, t).value;
    LegacyStateIs(based, t);
    DerivedAlike(based, raw, t, s);
    HydratedState(raw, key, t, Text(StateName(s)));
  }

  lemma DerivedAlike(a: Fields, b: Fields, t: Texts, s: State)
    requires DerivedAs(a, t, s) && forall f :: f != Id ==> Lookup(a, f) == Lookup(b, f)
    ensures DerivedAs(b, t, s)
  {
    hide Lookup, Counts;
  }

  lemma HydratedState(raw: Fields, key: string, t: Texts, state: Value)
    requires Hydrated(raw, key, t).Some? && RepairedState(Identified(raw, key, t), t) == Some(state)
    ensures Lookup(Hydrated(raw, key, t).value, LifecycleName) == state
  {
    hide RepairedState, Identified, SomeOverflows, Coerced, Defaults, IsCanonical;
    IdentityIsRequired();
    MigratedState(Repaired(raw, key, state, t), t);
  }

  lemma MigratedState(fields: Fields, t: Texts)
    ensures Lookup(CoercedAll(fields, t), LifecycleName) == Lookup(fields, LifecycleName)
  {
  }
}
