/** Normalizing a whole run record when it is read and written. */
module RunRecord {
  import opened Common
  import opened Lifecycle
  import opened Json
  import opened Storage
  import opened StorageLaws

  datatype RunField =
    | SchemaVersion | RunName | RunId | Directory | ServerUrl | RunStatus | RunRetryCount | RunTimeoutSeconds
    | RunBlockers | RunOutputRefs | Resources | ResourceCleanup | CreatedAt | UpdatedAt
    | OtherRunField(name: string)

  type RunFields = map<RunField, Value>

  datatype RawWorker = Snapshot(fields: Fields) | NotAMapping(value: Value)

  datatype RawWorkers = NoWorkers | BadWorkers(value: Value) | RawWorkers(workers: map<string, RawWorker>)

  /** A run record as the file holds it. */
  datatype RawRun = RawRun(fields: RunFields, workers: RawWorkers)

  /** A normalized run with hydrated workers. */
  datatype Run = Run(fields: RunFields, workers: map<string, Fields>)

  /** What normalization takes from its surroundings; validate checks the resource manifest. */
  datatype Surroundings =
    Surroundings(texts: Texts, cwd: string, fallbackName: string, validate: Value -> Option<Value>)

  const DEFAULT_SERVER_URL := "http://127.0.0.1:4096"

  function Field(fields: RunFields, f: RunField, default: Value): Value {
    if f in fields then fields[f] else default
  }

  function TruthyOr(v: Value, default: Value): Value {
    if Truthy(v) then v else default
  }

  function StatusWord(s: Status): string {
    match s
    case QueuedStatus => "queued"
    case Active => "active"
    case Blocked => "blocked"
    case Done => "done"
    case Failed => "failed"
    case Aborted => "aborted"
    case TimedOutStatus => "timeout"
  }

  function ShortText(v: Value, t: Texts): Value {
    if v == Null then Null
    else match StatusOf(t.canon(v))
      case Some(s) => Text(StatusWord(s))
      case None => Text(t.canon(v))
  }

  /** The fields that a normalized run always has. */
  function Defaulted(): set<RunField> {
    {SchemaVersion, RunName, RunId, Directory, ServerUrl, RunStatus, RunRetryCount, RunTimeoutSeconds, RunBlockers,
     RunOutputRefs, CreatedAt, UpdatedAt}
  }

  function NameOf(fields: RunFields, e: Surroundings): Value {
    TruthyOr(Field(fields, RunName, Null), Text(e.fallbackName))
  }

  function NormalValue(fields: RunFields, f: RunField, e: Surroundings): Value {
    match f
    case SchemaVersion => Field(fields, f, Int(1))
    case RunName => NameOf(fields, e)
    case RunId => TruthyOr(Field(fields, f, Null), NameOf(fields, e))
    case Directory => Field(fields, f, Text(e.cwd))
    case ServerUrl => TruthyOr(Field(fields, f, Null), Text(DEFAULT_SERVER_URL))
    case RunStatus => ShortText(Field(fields, f, Text("queued")), e.texts)
    case RunRetryCount => Field(fields, f, Int(0))
    case RunBlockers | RunOutputRefs => Field(fields, f, List([]))
    case ResourceCleanup => if Field(fields, f, Null).Object? then Field(fields, f, Null) else Object(map[])
    case RunTimeoutSeconds | CreatedAt | UpdatedAt | Resources | OtherRunField(_) => Field(fields, f, Null)
  }

  function Filled(fields: RunFields, e: Surroundings): RunFields {
    map f | f in fields.Keys + Defaulted() :: NormalValue(fields, f, e)
  }

  /** None when the resource manifest is invalid. */
  function NormalizedFields(fields: RunFields, e: Surroundings): Option<RunFields> {
    var filled := Filled(fields, e);
    if Resources !in filled then Some(filled)
    else match e.validate(filled[Resources])
      case None => None
      case Some(resources) => Some(filled[Resources := resources])
  }

  function HydratedWorkers(workers: map<string, RawWorker>, t: Texts): Option<map<string, Fields>> {
    if forall key :: key in workers ==> workers[key].Snapshot? && Hydrated(workers[key].fields, key, t).Some?
    then Some(map key | key in workers :: Hydrated(workers[key].fields, key, t).value)
    else None
  }

  /** Reading a run: None when it is corrupted, or has workers and an infinite schema version. */
  function Loaded(raw: RawRun, e: Surroundings): Option<Run> {
    match NormalizedFields(raw.fields, e)
    case None => None
    case Some(fields) =>
      match raw.workers
      case NoWorkers => Some(Run(fields, map[]))
      case BadWorkers(_) => None
      case RawWorkers(workers) =>
        if workers != map[] && IntOverflows(Field(fields, SchemaVersion, Int(1)), e.texts) then None
        else
          match HydratedWorkers(workers, e.texts)
          case None => None
          case Some(hydrated) => Some(Run(fields, hydrated))
  }

  /** The raw snapshot that a worker was persisted with, if any. */
  function PersistedWorker(raw: RawRun, key: string): Option<RawWorker> {
    if raw.workers.RawWorkers? && key in raw.workers.workers then Some(raw.workers.workers[key]) else None
  }

  function StoredWorker(w: Fields, key: string, persisted: Option<RawWorker>, t: Texts): Option<Fields> {
    match persisted
    case None => Stored(w, key, None, t)
    case Some(NotAMapping(_)) => None
    case Some(Snapshot(fields)) => Stored(w, key, Some(fields), t)
  }

  /** Writing a run over what was persisted. */
  function StoredRun(run: Run, persisted: RawRun, e: Surroundings): Option<RawRun> {
    match NormalizedFields(run.fields, e)
    case None => None
    case Some(fields) =>
      if forall key :: key in run.workers ==>
           StoredWorker(run.workers[key], key, PersistedWorker(persisted, key), e.texts).Some?
      then Some(RawRun(fields, RawWorkers(map key | key in run.workers ::
                  Snapshot(StoredWorker(run.workers[key], key, PersistedWorker(persisted, key), e.texts).value))))
      else None
  }

  /** A run as a mutator finds it: its fields, and its workers as their own snapshots. */
  function AsRaw(run: Run): RawRun {
    RawRun(run.fields, RawWorkers(map key | key in run.workers :: Snapshot(run.workers[key])))
  }

  // ----- Reading back what was written -----

  /** Laws of the surroundings: the words of the statuses and canonical texts are kept, and so are valid manifests. */
  ghost predicate LawfulRun(e: Surroundings) {
    && Lawful(e.texts)
    && (forall s: Status :: e.texts.canon(Text(StatusWord(s))) == StatusWord(s))
    && (forall v :: e.texts.canon(Text(e.texts.canon(v))) == e.texts.canon(v))
    && (forall v :: e.validate(v).Some? ==> e.validate(e.validate(v).value) == Some(e.validate(v).value))
  }

  lemma WordIsStatus(s: Status)
    ensures StatusOf(StatusWord(s)) == Some(s)
  {
    match s {
      case QueuedStatus =>
      case Active =>
      case Blocked =>
      case Done =>
      case Failed =>
      case Aborted =>
      case TimedOutStatus =>
    }
  }

  lemma ShortTextKept(v: Value, e: Surroundings)
    requires LawfulRun(e)
    ensures ShortText(ShortText(v, e.texts), e.texts) == ShortText(v, e.texts)
  {
    hide StatusOf, StatusWord, Lawful;
    if v != Null {
      match StatusOf(e.texts.canon(v)) {
        case Some(s) => WordIsStatus(s);
        case None =>
      }
    }
  }

  lemma TruthyKept(v: Value, default: Value)
    ensures TruthyOr(TruthyOr(v, default), default) == TruthyOr(v, default)
  {
  }

  lemma NameKept(fields: RunFields, e: Surroundings)
    ensures NameOf(Filled(fields, e), e) == NameOf(fields, e)
    ensures forall f :: f in Defaulted() || f in fields ==>
            Field(Filled(fields, e), f, Null) == NormalValue(fields, f, e)
  {
    hide NormalValue, TruthyOr;
    forall f | f in Defaulted() || f in fields
      ensures Field(Filled(fields, e), f, Null) == NormalValue(fields, f, e)
    {
    }
    NameIsNormal(fields, e);
    TruthyKept(Field(fields, RunName, Null), Text(e.fallbackName));
  }

  lemma NameIsNormal(fields: RunFields, e: Surroundings)
    ensures RunName in Defaulted() && NormalValue(fields, RunName, e) == NameOf(fields, e)
  {
  }

  lemma ValueKept(fields: RunFields, f: RunField, e: Surroundings)
    requires LawfulRun(e) && f in Filled(fields, e)
    ensures NormalValue(Filled(fields, e), f, e) == NormalValue(fields, f, e)
  {
    hide ShortText, LawfulRun, Defaulted, Filled, NameOf, TruthyOr;
    var filled := Filled(fields, e);
    FilledAt(fields, f, e);
    NameKept(fields, e);
    ShortTextKept(Field(fields, RunStatus, Text("queued")), e);
    TruthyKept(Field(fields, f, Null), Text(DEFAULT_SERVER_URL));
    TruthyKept(Field(fields, f, Null), NameOf(fields, e));
  }

  lemma FilledAt(fields: RunFields, f: RunField, e: Surroundings)
    requires f in Filled(fields, e)
    ensures forall default :: Field(Filled(fields, e), f, default) == NormalValue(fields, f, e)
  {
    hide NormalValue, Defaulted;
  }

  lemma FillingIsIdempotent(fields: RunFields, e: Surroundings)
    requires LawfulRun(e)
    ensures Filled(Filled(fields, e), e) == Filled(fields, e)
  {
    hide NormalValue, Defaulted, LawfulRun;
    var filled := Filled(fields, e);
    forall f | f in filled ensures NormalValue(filled, f, e) == filled[f] { ValueKept(fields, f, e); }
  }

  lemma ManifestValue(fields: RunFields, resources: Value, f: RunField, e: Surroundings)
    requires Resources in fields
    ensures NormalValue(fields[Resources := resources], f, e) ==
            if f == Resources then resources else NormalValue(fields, f, e)
  {
    hide ShortText, TruthyOr;
  }

  lemma ManifestKept(fields: RunFields, resources: Value, e: Surroundings)
    requires Filled(fields, e) == fields && Resources in fields
    ensures Filled(fields[Resources := resources], e) == fields[Resources := resources]
  {
    hide NormalValue, Defaulted;
    var changed := fields[Resources := resources];
    assert changed.Keys == fields.Keys;
    assert forall f :: f in fields ==> Filled(fields, e)[f] == NormalValue(fields, f, e);
    forall f | f in Filled(changed, e) ensures f in changed && Filled(changed, e)[f] == changed[f] {
      ManifestValue(fields, resources, f, e);
      assert f in Filled(fields, e);
    }
  }

  /** Normalizing normalized run fields changes nothing. */
  lemma NormalizingIsIdempotent(fields: RunFields, e: Surroundings)
    requires LawfulRun(e)
    ensures NormalizedFields(fields, e).Some? ==>
              NormalizedFields(NormalizedFields(fields, e).value, e) == NormalizedFields(fields, e)
  {
    hide Filled;
    var filled := Filled(fields, e);
    FillingIsIdempotent(fields, e);
    if Resources in filled && e.validate(filled[Resources]).Some? {
      var resources := e.validate(filled[Resources]).value;
      ManifestKept(filled, resources, e);
      assert NormalizedFields(fields, e) == Some(filled[Resources := resources]);
      assert filled[Resources := resources][Resources := resources] == filled[Resources := resources];
    }
  }

  /** What a field of a normalized run is, given what was stored for it and the run's name. */
  predicate RunFieldRead(f: RunField, stored: Option<Value>, name: Value, v: Value, e: Surroundings) {
    var used := stored.Some? && Truthy(stored.value);
    match f
    case RunName => v == if used then stored.value else Text(e.fallbackName)
    case RunId => v == if used then stored.value else name
    case ServerUrl => v == if used then stored.value else Text("http://127.0.0.1:4096")
    case SchemaVersion => v == GetOr(stored, Int(1))
    case Directory => v == GetOr(stored, Text(e.cwd))
    case RunRetryCount => v == GetOr(stored, Int(0))
    case RunBlockers | RunOutputRefs => v == GetOr(stored, List([]))
    case RunStatus =>
      if stored == Some(Null) then v == Null
      else
        var word := e.texts.canon(GetOr(stored, Text("queued")));
        v == (match StatusOf(word) case Some(s) => Text(StatusWord(s)) case None => Text(word))
    case ResourceCleanup => v == if stored.Some? && stored.value.Object? then stored.value else Object(map[])
    case Resources => stored.Some? && e.validate(stored.value) == Some(v)
    case RunTimeoutSeconds | CreatedAt | UpdatedAt | OtherRunField(_) => v == GetOr(stored, Null)
  }

  /** Normalizing keeps the stored fields and adds the missing ones, each read as its name says. */
  lemma NormalizedFieldsRead(fields: RunFields, f: RunField, e: Surroundings)
    requires NormalizedFields(fields, e).Some?
    ensures var r := NormalizedFields(fields, e).value; var stored := if f in fields then Some(fields[f]) else None;
            && (f in r <==> f in fields || f in Defaulted())
            && (f in r ==> RunName in r && RunFieldRead(f, stored, r[RunName], r[f], e))
  {
    hide StatusOf, StatusWord;
    NameIsNormal(fields, e);
  }

  ghost predicate CanonicalRun(run: Run, t: Texts) {
    forall key :: key in run.workers ==> Canonical(run.workers[key], key, t)
  }

  lemma LoadedIsCanonical(raw: RawRun, e: Surroundings)
    ensures Loaded(raw, e).Some? ==> CanonicalRun(Loaded(raw, e).value, e.texts)
  {
    hide Hydrated, Canonical, NormalizedFields;
    if Loaded(raw, e).Some? && raw.workers.RawWorkers? {
      forall key | key in raw.workers.workers ensures Canonical(Loaded(raw, e).value.workers[key], key, e.texts) {
        HydratedIsCanonical(raw.workers.workers[key].fields, key, e.texts);
      }
    }
  }

  lemma WorkerReadsBack(w: Fields, key: string, file: RawRun, e: Surroundings)
    requires LawfulRun(e) && Loaded(file, e).Some? && Canonical(w, key, e.texts)
    ensures var stored := StoredWorker(w, key, PersistedWorker(file, key), e.texts);
            stored.Some? && Hydrated(stored.value, key, e.texts) == Some(w)
  {
    hide Hydrated, Canonical, NormalizedFields, Stored, Lawful;
    var persisted := PersistedWorker(file, key);
    if persisted.Some? { MigratedWhenHydrated(persisted.value.fields, key, e.texts); }
    StorageRoundTrip(w, key, if persisted.Some? then Some(persisted.value.fields) else None, e.texts);
  }

  /** Storing a loaded run over any loadable file never raises, and what is stored is loaded back as that run, whatever
      name it is read under. */
  lemma StoredIsReadBack(run: Run, raw: RawRun, file: RawRun, e: Surroundings)
    requires LawfulRun(e) && Loaded(raw, e) == Some(run) && Loaded(file, e).Some?
    ensures var stored := StoredRun(run, file, e); stored.Some? && Loaded(stored.value, e) == Some(run)
  {
    hide NormalizedFields, Canonical, StoredWorker, Hydrated, LawfulRun;
    LoadedIsCanonical(raw, e);
    NormalizingIsIdempotent(raw.fields, e);
    forall key | key in run.workers
      ensures var stored := StoredWorker(run.workers[key], key, PersistedWorker(file, key), e.texts);
              stored.Some? && Hydrated(stored.value, key, e.texts) == Some(run.workers[key])
    {
      WorkerReadsBack(run.workers[key], key, file, e);
    }
    WrittenHydrates(StoredRun(run, file, e).value, run.workers, e.texts);
  }

  /** Normalizing a loaded run again changes nothing, workers included. */
  lemma LoadedStays(raw: RawRun, e: Surroundings)
    requires LawfulRun(e)
    ensures Loaded(raw, e).Some? ==> Loaded(AsRaw(Loaded(raw, e).value), e) == Loaded(raw, e)
  {
    hide NormalizedFields, Canonical, Hydrated, Lawful, Stored;
    if Loaded(raw, e).Some? {
      var run := Loaded(raw, e).value;
      LoadedIsCanonical(raw, e);
      NormalizingIsIdempotent(raw.fields, e);
      forall key | key in run.workers ensures HydratesTo(Snapshot(run.workers[key]), key, run.workers[key], e.texts) {
        CanonicalStays(run.workers[key], key, e.texts);
      }
      WrittenHydrates(AsRaw(run), run.workers, e.texts);
    }
  }

  lemma WrittenHydrates(file: RawRun, workers: map<string, Fields>, t: Texts)
    requires file.workers.RawWorkers? && file.workers.workers.Keys == workers.Keys
    requires forall key :: key in workers ==> HydratesTo(file.workers.workers[key], key, workers[key], t)
    ensures HydratedWorkers(file.workers.workers, t) == Some(workers)
  {
    hide Hydrated;
    forall key | key in workers
      ensures file.workers.workers[key].Snapshot?
      ensures Hydrated(file.workers.workers[key].fields, key, t) == Some(workers[key])
    {
      assert HydratesTo(file.workers.workers[key], key, workers[key], t);
    }
    var hydrated := HydratedWorkers(file.workers.workers, t);
    assert hydrated.Some? && hydrated.value.Keys == workers.Keys;
    assert forall key :: key in workers ==> hydrated.value[key] == workers[key];
    assert hydrated.value == workers;
  }

  predicate HydratesTo(raw: RawWorker, key: string, w: Fields, t: Texts) {
    raw.Snapshot? && Hydrated(raw.fields, key, t) == Some(w)
  }
}
