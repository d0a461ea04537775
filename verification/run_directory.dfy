/** The directory of run records: one file a run, written under the name that the record itself carries. */
module RunDirectory {
  import opened Common
  import opened Lifecycle
  import opened Json
  import opened Storage
  import opened RunRecord

  /** The files by the run name that their file name is made of. */
  type Disk = map<string, RawRun>

  /** The host: what normalization takes from it, and the names its file system can open. */
  datatype Host = Host(surroundings: Surroundings, opens: string -> bool)

  predicate ValidName(name: string, h: Host) {
    name != "" && name != "." && name != ".." && '/' !in name && '\\' !in name && h.opens(name)
  }

  function Under(name: string, h: Host): Surroundings {
    h.surroundings.(fallbackName := name)
  }

  function RecordName(fields: RunFields): Value {
    Field(fields, RunName, Null)
  }

  /** The file that a record is written to; None when its name field is no valid run name. */
  function OwnName(fields: RunFields, h: Host): Option<string> {
    var name := RecordName(fields);
    if name.Text? && ValidName(name.text, h) then Some(name.text) else None
  }

  function Load(disk: Disk, name: string, h: Host): Option<Run> {
    if ValidName(name, h) && name in disk then Loaded(disk[name], Under(name, h)) else None
  }

  predicate FencedRun(run: Run) {
    var audit := Field(run.fields, ResourceCleanup, Null);
    audit.Object? && "status" in audit.fields && audit.fields["status"] == Text("in_progress")
  }

  /** What a mutator leaves; None when it raises. */
  type Mutator = Run -> Option<RawRun>

  /** The disk after a write, the file it went to, and the run that the caller gets. */
  datatype FileWrite = FileWrite(disk: Disk, own: string, returned: Run)

  /** Writing under the record's own name, over what was read; None when that raises. */
  function Written(disk: Disk, run: Run, persisted: RawRun, h: Host): Option<FileWrite> {
    match OwnName(run.fields, h)
    case None => None
    case Some(own) =>
      match StoredRun(run, persisted, Under(own, h))
      case None => None
      case Some(file) => Some(FileWrite(disk[own := file], own, run))
  }

  /** update_run: None when a step raises, and then nothing was written. */
  function Updated(disk: Disk, name: string, mutate: Mutator, allowCleanup: bool, h: Host): Option<FileWrite> {
    match Load(disk, name, h)
    case None => None
    case Some(run) =>
      if !allowCleanup && FencedRun(run) then None
      else
        match mutate(run)
        case None => None
        case Some(raw) =>
          match Loaded(raw, Under(name, h))
          case None => None
          case Some(changed) => Written(disk, changed, disk[name], h)
  }

  function NewRun(name: string, directory: Value, serverUrl: Value, now: Value): RawRun {
    RawRun(map[SchemaVersion := Int(1), RunName := Text(name), RunId := Text(name), Directory := directory,
               ServerUrl := serverUrl, RunStatus := Text("queued"), RunRetryCount := Int(0),
               RunTimeoutSeconds := Null, RunBlockers := List([]), RunOutputRefs := List([]),
               CreatedAt := now, UpdatedAt := now],
           RawWorkers(map[]))
  }

  function NothingPersisted(): RawRun {
    RawRun(map[], NoWorkers)
  }

  function Created(disk: Disk, name: string, directory: Value, serverUrl: Value, now: Value,
                   h: Host): Option<FileWrite> {
    match Loaded(NewRun(name, directory, serverUrl, now), Under(name, h))
    case None => None
    case Some(run) =>
      if !ValidName(name, h) || name in disk then None
      else Written(disk, run, NothingPersisted(), h)
  }

  /** delete_run: None when it raises. */
  function Deleted(disk: Disk, name: string, expected: Option<Run>, h: Host): Option<Disk> {
    if !ValidName(name, h) || name !in disk then None
    else if expected.Some? && Load(disk, name, h) != expected then None
    else Some(disk - {name})
  }

  // ----- Where an update goes, and when it raises -----

  ghost predicate LawfulHost(h: Host) {
    LawfulRun(h.surroundings)
  }

  /** A record that has a name is normalized alike under every file name. */
  lemma NamedReadsAlike(raw: RawRun, a: string, b: string, h: Host)
    requires Truthy(RecordName(raw.fields))
    ensures Loaded(raw, Under(a, h)) == Loaded(raw, Under(b, h))
  {
    hide HydratedWorkers, ShortText;
    var x, y := Under(a, h), Under(b, h);
    forall f ensures NormalValue(raw.fields, f, x) == NormalValue(raw.fields, f, y) { }
    assert Filled(raw.fields, x) == Filled(raw.fields, y);
  }

  lemma NormalizedName(raw: RawRun, e: Surroundings)
    requires Loaded(raw, e).Some?
    ensures RecordName(Loaded(raw, e).value.fields) == NameOf(raw.fields, e)
  {
    hide HydratedWorkers, Defaulted;
    NameIsNormal(raw.fields, e);
  }

  /** Normalizing does not look at the name it is given when the run has one. */
  lemma StoredAlike(run: Run, persisted: RawRun, a: string, b: string, h: Host)
    requires Truthy(RecordName(run.fields))
    ensures StoredRun(run, persisted, Under(a, h)) == StoredRun(run, persisted, Under(b, h))
  {
    hide StoredWorker, ShortText;
    var x, y := Under(a, h), Under(b, h);
    forall f ensures NormalValue(run.fields, f, x) == NormalValue(run.fields, f, y) { }
    assert Filled(run.fields, x) == Filled(run.fields, y);
  }

  lemma UnderIsLawful(name: string, h: Host)
    requires LawfulHost(h)
    ensures LawfulRun(Under(name, h))
  {
  }

  /** A loaded run with a valid name is written, and the file it goes to reads back as that run. */
  lemma WrittenReadsBack(disk: Disk, run: Run, raw: RawRun, name: string, persisted: RawRun, h: Host)
    requires LawfulHost(h) && Loaded(raw, Under(name, h)) == Some(run)
    requires Loaded(persisted, Under(name, h)).Some?
    ensures Written(disk, run, persisted, h).Some? <==> OwnName(run.fields, h).Some?
    ensures var w := Written(disk, run, persisted, h);
            w.Some? ==> w.value.returned == run && Load(w.value.disk, w.value.own, h) == Some(run)
  {
    hide StoredRun, Loaded, LawfulHost, LawfulRun;
    if OwnName(run.fields, h).Some? {
      var own := OwnName(run.fields, h).value;
      UnderIsLawful(name, h);
      StoredIsReadBack(run, raw, persisted, Under(name, h));
      StoredAlike(run, persisted, own, name, h);
      var file := StoredRun(run, persisted, Under(name, h)).value;
      StoredName(run, persisted, name, h);
      NamedReadsAlike(file, own, name, h);
    }
  }

  lemma StoredName(run: Run, persisted: RawRun, name: string, h: Host)
    requires StoredRun(run, persisted, Under(name, h)).Some? && Truthy(RecordName(run.fields))
    ensures RecordName(StoredRun(run, persisted, Under(name, h)).value.fields) == RecordName(run.fields)
  {
    hide StoredWorker, Defaulted;
    NameIsNormal(run.fields, Under(name, h));
  }

  /** An accepted update is read back under the name that the record carries. Under the name it was asked for it is read
      back exactly if the two are the same, or if it changed nothing; no third file changes. */
  lemma UpdateReadsBackIff(disk: Disk, name: string, mutate: Mutator, allowCleanup: bool, h: Host)
    requires LawfulHost(h) && Updated(disk, name, mutate, allowCleanup, h).Some?
    ensures var w := Updated(disk, name, mutate, allowCleanup, h).value;
            && RecordName(w.returned.fields) == Text(w.own)
            && Load(w.disk, w.own, h) == Some(w.returned)
            && (Load(w.disk, name, h) == Some(w.returned) <==>
                  w.own == name || Load(disk, name, h) == Some(w.returned))
            && w.disk.Keys == disk.Keys + {w.own} && forall other :: other in disk && other != w.own ==>
                                                        w.disk[other] == disk[other]
  {
    hide Loaded, StoredRun, LawfulHost;
    var raw := mutate(Load(disk, name, h).value).value;
    WrittenReadsBack(disk, Loaded(raw, Under(name, h)).value, raw, name, disk[name], h);
  }

  /** Exactly when an update raises: over its name, over the file it finds, by the fence, in the mutator, over the
      normalization of what the mutator left, or because that carries a name field that is no valid run name. */
  lemma UpdateRaisesIff(disk: Disk, name: string, mutate: Mutator, allowCleanup: bool, h: Host)
    requires LawfulHost(h)
    ensures Load(disk, name, h).Some? <==>
            NamesFile(name, h) && name in disk && Loaded(disk[name], Under(name, h)).Some?
    ensures Updated(disk, name, mutate, allowCleanup, h).None? <==>
            || Load(disk, name, h).None?
            || (!allowCleanup && AuditInProgress(Load(disk, name, h).value))
            || mutate(Load(disk, name, h).value).None?
            || var raw := mutate(Load(disk, name, h).value).value; var e := Under(name, h);
            Loaded(raw, e).None? || !(NameOf(raw.fields, e).Text? && NamesFile(NameOf(raw.fields, e).text, h))
  {
    hide Loaded, StoredRun, LawfulHost, ValidName, NamesFile, NameOf, FencedRun, AuditInProgress;
    ValidIff(name, h);
    if Load(disk, name, h).Some? { FencedIff(Load(disk, name, h).value); }
    if Load(disk, name, h).Some? && mutate(Load(disk, name, h).value).Some? {
      var raw := mutate(Load(disk, name, h).value).value;
      var changed := Loaded(raw, Under(name, h));
      if changed.Some? {
        NormalizedName(raw, Under(name, h));
        if RecordName(changed.value.fields).Text? { ValidIff(RecordName(changed.value.fields).text, h); }
        WrittenReadsBack(disk, changed.value, raw, name, disk[name], h);
      }
    }
  }

  // ----- The directory in place -----

  lemma CreatedReadsBack(disk: Disk, name: string, directory: Value, serverUrl: Value, now: Value, h: Host)
    requires LawfulHost(h)
    ensures Created(disk, name, directory, serverUrl, now, h).Some? <==> ValidName(name, h) && name !in disk
    ensures var w := Created(disk, name, directory, serverUrl, now, h);
            w.Some? ==> w.value.own == name && Load(w.value.disk, name, h) == Some(w.value.returned)
  {
    hide Loaded, StoredRun, LawfulHost, NameOf, ValidName;
    var raw, e, nothing := NewRun(name, directory, serverUrl, now), Under(name, h), NothingPersisted();
    EmptyRunLoads(raw, e);
    EmptyFileLoads(nothing, e);
    NormalizedName(raw, e);
    if ValidName(name, h) {
      ValidIsNonEmpty(name, h);
      KeptName(raw.fields, name, e);
    }
    WrittenReadsBack(disk, Loaded(raw, e).value, raw, name, nothing, h);
  }

  /** A new run shows its name, place and server, is queued, and has no workers. */
  predicate ShowsNew(run: Run, name: string, directory: Value, serverUrl: Value, now: Value, h: Host) {
    && run.workers == map[] && Field(run.fields, RunName, Null) == Text(name)
    && Field(run.fields, RunId, Null) == Text(name) && Field(run.fields, Directory, Null) == directory
    && (Truthy(serverUrl) ==> Field(run.fields, ServerUrl, Null) == serverUrl)
    && Field(run.fields, RunStatus, Null) == Text("queued") && Field(run.fields, RunRetryCount, Null) == Int(0)
    && Field(run.fields, CreatedAt, Null) == now && Field(run.fields, UpdatedAt, Null) == now
    && run.fields.Keys == Defaulted()
  }

  lemma CreatedShowsNew(name: string, directory: Value, serverUrl: Value, now: Value, h: Host)
    requires LawfulHost(h) && name != ""
    ensures var run := Loaded(NewRun(name, directory, serverUrl, now), Under(name, h));
            run.Some? && ShowsNew(run.value, name, directory, serverUrl, now, h)
  {
    hide Loaded, Filled, LawfulHost, ShowsNew, NewRun;
    var raw, e := NewRun(name, directory, serverUrl, now), Under(name, h);
    NewRunHasAll(name, directory, serverUrl, now);
    EmptyRunLoads(raw, e);
    FilledShowsNew(name, directory, serverUrl, now, h);
  }

  lemma NewRunHasAll(name: string, directory: Value, serverUrl: Value, now: Value)
    ensures NewRun(name, directory, serverUrl, now).fields.Keys == Defaulted()
    ensures NewRun(name, directory, serverUrl, now).workers == RawWorkers(map[])
    ensures Resources !in NewRun(name, directory, serverUrl, now).fields
  {
  }

  lemma FilledShowsNew(name: string, directory: Value, serverUrl: Value, now: Value, h: Host)
    requires LawfulHost(h) && name != ""
    ensures var raw, e := NewRun(name, directory, serverUrl, now), Under(name, h);
            ShowsNew(Run(Filled(raw.fields, e), map[]), name, directory, serverUrl, now, h)
  {
    hide Defaulted, StatusOf, LawfulHost, Filled, ShortText;
    var raw, e := NewRun(name, directory, serverUrl, now), Under(name, h);
    NewRunHasAll(name, directory, serverUrl, now);
    QueuedIsKept(h);
    FilledKeys(raw.fields, e);
    NewRunNamesAll();
    forall f | f in raw.fields
      ensures f in Filled(raw.fields, e) && Filled(raw.fields, e)[f] == NormalValue(raw.fields, f, e)
    {
      FilledValue(raw.fields, f, e);
    }
  }

  lemma FilledKeys(fields: RunFields, e: Surroundings)
    ensures Filled(fields, e).Keys == fields.Keys + Defaulted()
  {
    hide NormalValue, Defaulted;
  }

  lemma NewRunNamesAll()
    ensures {RunName, RunId, Directory, ServerUrl, RunStatus, RunRetryCount, CreatedAt, UpdatedAt} <= Defaulted()
  {
  }

  lemma QueuedIsKept(h: Host)
    requires LawfulHost(h)
    ensures ShortText(Text("queued"), h.surroundings.texts) == Text("queued")
  {
    hide StatusOf;
    WordIsStatus(QueuedStatus);
    var t := h.surroundings.texts;
    assert t.canon(Text(StatusWord(QueuedStatus))) == StatusWord(QueuedStatus) == "queued";
  }

  lemma CreatedIs(disk: Disk, name: string, directory: Value, serverUrl: Value, now: Value, h: Host)
    ensures var run := Loaded(NewRun(name, directory, serverUrl, now), Under(name, h));
            Created(disk, name, directory, serverUrl, now, h) ==
            if run.None? || !ValidName(name, h) || name in disk then None
            else Written(disk, run.value, NothingPersisted(), h)
  {
    hide Loaded, Written, ValidName, NewRun;
  }

  lemma EmptyRunLoads(raw: RawRun, e: Surroundings)
    requires raw.workers == RawWorkers(map[]) && Resources !in raw.fields
    ensures Loaded(raw, e) == Some(Run(Filled(raw.fields, e), map[]))
  {
    hide NormalValue;
  }

  lemma EmptyFileLoads(raw: RawRun, e: Surroundings)
    requires raw == NothingPersisted()
    ensures Loaded(raw, e).Some?
  {
    hide NormalValue;
  }

  class Directory {
    const host: Host
    var files: Disk

    constructor (host: Host)
      ensures this.host == host && files == map[]
    {
      this.host := host;
      files := map[];
    }

    /** Replaces the file under the record's own name; None when it raises, and then nothing changed. */
    method Write(run: Run, persisted: RawRun) returns (written: Option<FileWrite>)
      modifies this`files
      ensures written == Written(old(files), run, persisted, host)
      ensures files == if written.Some? then written.value.disk else old(files)
    {
      hide StoredRun;
      var own := OwnName(run.fields, host);
      if own.None? { return None; }
      var file := StoredRun(run, persisted, Under(own.value, host));
      if file.None? { return None; }
      files := files[own.value := file.value];
      return Some(FileWrite(files, own.value, run));
    }

    /** Exactly the valid names that no file has yet are created, and read back. */
    method CreateRun(name: string, directory: Value, serverUrl: Value, now: Value) returns (written: Option<FileWrite>)
      modifies this`files
      ensures written == Created(old(files), name, directory, serverUrl, now, host)
      ensures LawfulHost(host) ==> (written.Some? <==> ValidName(name, host) && name !in old(files))
      ensures LawfulHost(host) && written.Some? ==> Load(files, name, host) == Some(written.value.returned)
      ensures LawfulHost(host) && written.Some? ==>
                ShowsNew(written.value.returned, name, directory, serverUrl, now, host)
      ensures written.None? ==> files == old(files)
    {
      if LawfulHost(host) && name != "" { CreatedShowsNew(name, directory, serverUrl, now, host); }
      hide Loaded, Written, ShowsNew, LawfulHost, ValidName, Load, NewRun, NothingPersisted;
      if LawfulHost(host) { CreatedReadsBack(files, name, directory, serverUrl, now, host); }
      var run := Loaded(NewRun(name, directory, serverUrl, now), Under(name, host));
      CreatedIs(files, name, directory, serverUrl, now, host);
      hide Created, Under;
      if run.None? || !ValidName(name, host) || name in files { return None; }
      written := Write(run.value, NothingPersisted());
    }

    /** Reads, checks the fence, mutates, normalizes and writes. What it returns is what the record's own file then
        holds; no other file changes. */
    method UpdateRun(name: string, mutate: Mutator, allowCleanup: bool) returns (written: Option<FileWrite>)
      modifies this`files
      ensures written == Updated(old(files), name, mutate, allowCleanup, host)
      ensures written.None? ==> files == old(files)
      ensures written.Some? ==> written.value.own in files && files == old(files)[written.value.own :=
                                                              files[written.value.own]]
      ensures LawfulHost(host) && written.Some? ==> Load(files, written.value.own, host) == Some(written.value.returned)
    {
      hide Loaded, StoredRun, LawfulHost, FencedRun, ValidName, OwnName;
      if LawfulHost(host) && Updated(files, name, mutate, allowCleanup, host).Some? {
        UpdateReadsBackIff(files, name, mutate, allowCleanup, host);
      }
      var run := Load(files, name, host);
      if run.None? { return None; }
      if !allowCleanup && FencedRun(run.value) { return None; }
      var raw := mutate(run.value);
      if raw.None? { return None; }
      var changed := Loaded(raw.value, Under(name, host));
      if changed.None? { return None; }
      written := Write(changed.value, files[name]);
    }

    /** Deletes the file of a valid name, if the run it holds is the expected one. */
    method DeleteRun(name: string, expected: Option<Run>) returns (deleted: bool)
      modifies this`files
      ensures deleted <==> ValidName(name, host) && name in old(files)
                           && (expected.Some? ==> Load(old(files), name, host) == expected)
      ensures files == if deleted then old(files) - {name} else old(files)
      ensures files == GetOr(Deleted(old(files), name, expected, host), old(files))
    {
      hide Loaded, ValidName;
      if !ValidName(name, host) || name !in files { return false; }
      if expected.Some? {
        var current := Load(files, name, host);
        if current != expected { return false; }
      }
      files := files - {name};
      return true;
    }
  }

  /** The audit of the run is an object that says it is in progress. */
  predicate AuditInProgress(run: Run) {
    && ResourceCleanup in run.fields && run.fields[ResourceCleanup].Object?
    && "status" in run.fields[ResourceCleanup].fields
    && run.fields[ResourceCleanup].fields["status"] == Text("in_progress")
  }

  lemma FencedIff(run: Run)
    ensures FencedRun(run) <==> AuditInProgress(run)
  {
  }

  /** No path separator, and neither empty nor a directory. */
  predicate NamesFile(name: string, h: Host) {
    && name !in {"", ".", ".."} && h.opens(name)
    && forall i :: 0 <= i < |name| ==> name[i] != '/' && name[i] != '\\'
  }

  lemma ValidIff(name: string, h: Host)
    ensures ValidName(name, h) <==> NamesFile(name, h)
  {
  }

  // ----- The fence of a record that is stored under another name -----

  /** No ordinary update of the name commits. */
  ghost predicate Blocks(disk: Disk, name: string, h: Host) {
    forall mutate: Mutator :: Updated(disk, name, mutate, false, h).None?
  }

  /** After a cleanup has put up its fence, ordinary updates of the name are refused exactly if the record is stored
      under its own name, or was fenced before. */
  lemma FenceHoldsIff(disk: Disk, name: string, begin: Mutator, h: Host)
    requires LawfulHost(h) && Updated(disk, name, begin, true, h).Some?
    requires FencedRun(Updated(disk, name, begin, true, h).value.returned)
    ensures var w := Updated(disk, name, begin, true, h).value;
            Blocks(w.disk, name, h) <==> w.own == name || FencedRun(Load(disk, name, h).value)
  {
    hide Loaded, StoredRun, LawfulHost, FencedRun, OwnName, ValidName;
    var w := Updated(disk, name, begin, true, h).value;
    UpdateReadsBackIff(disk, name, begin, true, h);
    if w.own != name {
      assert w.disk[name] == disk[name];
      if !FencedRun(Load(disk, name, h).value) { assert Updated(w.disk, name, begin, false, h).Some?; }
    }
  }

  // ----- Records stored under their own name -----

  ghost predicate WellNamed(disk: Disk, h: Host) {
    forall name :: name in disk ==> ValidName(name, h) && NameOf(disk[name].fields, Under(name, h)) == Text(name)
  }

  ghost predicate KeepsName(mutate: Mutator) {
    forall run :: mutate(run).Some? ==> RecordName(mutate(run).value.fields) == RecordName(run.fields)
  }

  datatype Operation =
    | Create(directory: Value, serverUrl: Value, now: Value)
    | Update(mutate: Mutator, allowCleanup: bool)
    | Delete(expected: Option<Run>)

  function After(disk: Disk, name: string, op: Operation, h: Host): Disk {
    match op
    case Create(directory, serverUrl, now) =>
      (match Created(disk, name, directory, serverUrl, now, h) case None => disk case Some(w) => w.disk)
    case Update(mutate, allowCleanup) =>
      (match Updated(disk, name, mutate, allowCleanup, h) case None => disk case Some(w) => w.disk)
    case Delete(expected) => GetOr(Deleted(disk, name, expected, h), disk)
  }

  function AfterAll(disk: Disk, ops: seq<(string, Operation)>, h: Host): Disk
    decreases |ops|
  {
    if ops == [] then disk else AfterAll(After(disk, ops[0].0, ops[0].1, h), ops[1..], h)
  }

  /** An update of a well-named record by a mutator that keeps the name goes to the record's own file. */
  lemma KeptNameIsOwn(disk: Disk, name: string, mutate: Mutator, allowCleanup: bool, h: Host)
    requires WellNamed(disk, h) && KeepsName(mutate) && Updated(disk, name, mutate, allowCleanup, h).Some?
    ensures Updated(disk, name, mutate, allowCleanup, h).value.own == name
  {
    hide Loaded, StoredRun, ValidName, NameOf;
    var e := Under(name, h);
    var run := Load(disk, name, h).value;
    var raw := mutate(run).value;
    NormalizedName(disk[name], e);
    NormalizedName(raw, e);
    ValidIsNonEmpty(name, h);
    KeptName(raw.fields, name, e);
  }

  lemma NameIsUsed(name: string)
    ensures Truthy(Text(name)) <==> name != ""
  {
  }

  lemma KeptName(fields: RunFields, name: string, e: Surroundings)
    requires RecordName(fields) == Text(name) && name != ""
    ensures NameOf(fields, e) == Text(name)
  {
  }

  lemma WrittenIsNamed(disk: Disk, run: Run, persisted: RawRun, name: string, h: Host)
    requires WellNamed(disk, h) && RecordName(run.fields) == Text(name) && Written(disk, run, persisted, h).Some?
    ensures WellNamed(Written(disk, run, persisted, h).value.disk, h)
    ensures Written(disk, run, persisted, h).value.own == name
  {
    hide StoredRun, NameOf;
    NameIsUsed(name);
    var file := StoredRun(run, persisted, Under(name, h)).value;
    StoredName(run, persisted, name, h);
    KeptName(file.fields, name, Under(name, h));
  }

  /** Creating, updating by mutators that keep the name, and deleting leave every record under its own name, and touch
      no other record than the one they name. */
  lemma OperationKeepsNames(disk: Disk, name: string, op: Operation, h: Host)
    requires WellNamed(disk, h) && (op.Update? ==> KeepsName(op.mutate))
    ensures WellNamed(After(disk, name, op, h), h)
    ensures forall other :: other != name ==>
              (other in After(disk, name, op, h) <==> other in disk)
              && (other in disk ==> After(disk, name, op, h)[other] == disk[other])
  {
    hide Loaded, StoredRun, ValidName, NameOf, KeepsName, Written;
    var e := Under(name, h);
    match op {
      case Create(directory, serverUrl, now) =>
        var raw := NewRun(name, directory, serverUrl, now);
        if Created(disk, name, directory, serverUrl, now, h).Some? {
          NormalizedName(raw, e);
          ValidIsNonEmpty(name, h);
          KeptName(raw.fields, name, e);
          WrittenIsNamed(disk, Loaded(raw, e).value, NothingPersisted(), name, h);
          WrittenElsewhere(disk, Loaded(raw, e).value, NothingPersisted(), h);
        }
      case Update(mutate, allowCleanup) =>
        if Updated(disk, name, mutate, allowCleanup, h).Some? {
          KeptNameIsOwn(disk, name, mutate, allowCleanup, h);
          var changed := Loaded(mutate(Load(disk, name, h).value).value, e).value;
          WrittenOwn(disk, changed, disk[name], h);
          WrittenIsNamed(disk, changed, disk[name], name, h);
          WrittenElsewhere(disk, changed, disk[name], h);
        }
      case Delete(_) =>
    }
  }

  lemma ValidIsNonEmpty(name: string, h: Host)
    requires ValidName(name, h)
    ensures name != ""
  {
  }

  lemma WrittenOwn(disk: Disk, run: Run, persisted: RawRun, h: Host)
    requires Written(disk, run, persisted, h).Some?
    ensures RecordName(run.fields) == Text(Written(disk, run, persisted, h).value.own)
  {
    hide StoredRun;
  }

  lemma WrittenElsewhere(disk: Disk, run: Run, persisted: RawRun, h: Host)
    requires Written(disk, run, persisted, h).Some?
    ensures var w := Written(disk, run, persisted, h).value;
            forall other :: other != w.own ==>
              (other in w.disk <==> other in disk) && (other in disk ==> w.disk[other] == disk[other])
  {
    hide StoredRun;
  }

  ghost predicate NameKeeping(ops: seq<(string, Operation)>) {
    forall op :: op in ops && op.1.Update? ==> KeepsName(op.1.mutate)
  }

  lemma {:induction false} NamesAreKept(disk: Disk, ops: seq<(string, Operation)>, h: Host)
    requires WellNamed(disk, h) && NameKeeping(ops)
    ensures WellNamed(AfterAll(disk, ops, h), h)
    decreases |ops|
  {
    hide WellNamed, After, KeepsName;
    if ops != [] {
      assert ops[0] in ops;
      OperationKeepsNames(disk, ops[0].0, ops[0].1, h);
      NamesAreKept(After(disk, ops[0].0, ops[0].1, h), ops[1..], h);
    }
  }

  /** From an empty directory on, through any operations whose mutators keep the name, every accepted update is read
      back under the name it was asked for, and its fence, if it puts one up, stops every ordinary update of that
      name. */
  lemma UpdatesAreReadBack(ops: seq<(string, Operation)>, name: string, mutate: Mutator, h: Host)
    requires LawfulHost(h) && NameKeeping(ops) && KeepsName(mutate)
    requires Updated(AfterAll(map[], ops, h), name, mutate, true, h).Some?
    ensures var w := Updated(AfterAll(map[], ops, h), name, mutate, true, h).value;
            && w.own == name && Load(w.disk, name, h) == Some(w.returned)
            && (FencedRun(w.returned) ==> Blocks(w.disk, name, h))
  {
    hide Updated, Load, FencedRun, LawfulHost, KeepsName, WellNamed, Blocks, AfterAll;
    EmptyIsWellNamed(h);
    NamesAreKept(map[], ops, h);
    var disk := AfterAll(map[], ops, h);
    KeptNameIsOwn(disk, name, mutate, true, h);
    UpdateReadsBackIff(disk, name, mutate, true, h);
    if FencedRun(Updated(disk, name, mutate, true, h).value.returned) { FenceHoldsIff(disk, name, mutate, h); }
  }

  lemma EmptyIsWellNamed(h: Host)
    ensures WellNamed(map[], h)
  {
  }

  // ----- A record that was copied to another file name -----

  /** What copying other.json to demo.json leaves, with any name field. */
  function Misnamed(name: Value): Disk {
    map["demo" := RawRun(map[RunName := name], NoWorkers)]
  }

  function Setting(field: RunField, value: Value): Mutator {
    (run: Run) => Some(AsRaw(run).(fields := run.fields[field := value]))
  }

  const IN_PROGRESS := Object(map["status" := Text("in_progress")])

  lemma MisnamedLoads(name: Value, h: Host)
    requires LawfulHost(h) && ValidName("demo", h) && Truthy(name)
    ensures var run := Load(Misnamed(name), "demo", h);
            && run.Some? && run.value.workers == map[] && RecordName(run.value.fields) == name
            && Resources !in run.value.fields && ResourceCleanup !in run.value.fields
            && Field(run.value.fields, UpdatedAt, Int(0)) == Null
  {
    hide ShortText;
    var raw, e := Misnamed(name)["demo"], Under("demo", h);
    NormalizedName(raw, e);
    FilledValue(raw.fields, UpdatedAt, e);
  }

  lemma FilledValue(fields: RunFields, f: RunField, e: Surroundings)
    requires f in Defaulted() || f in fields
    ensures f in Filled(fields, e) && Filled(fields, e)[f] == NormalValue(fields, f, e)
  {
    hide NormalValue;
  }

  /** The run that an update of that record returns, when it sets a field that normalization leaves alone. */
  lemma MisnamedUpdate(field: RunField, value: Value, allowCleanup: bool, h: Host)
    requires LawfulHost(h) && ValidName("demo", h) && ValidName("other", h)
    requires field == UpdatedAt || (field == ResourceCleanup && value.Object?)
    ensures var w := Updated(Misnamed(Text("other")), "demo", Setting(field, value), allowCleanup, h);
            w.Some? && w.value.own == "other" && Field(w.value.returned.fields, field, Null) == value
  {
    hide Loaded, StoredRun, LawfulHost, ValidName, OwnName, Filled, Defaulted, NameOf, Under, Truthy;
    NameIsUsed("other");
    var disk, e := Misnamed(Text("other")), Under("demo", h);
    MisnamedLoads(Text("other"), h);
    var run := Load(disk, "demo", h).value;
    var raw := Setting(field, value)(run).value;
    EmptyRunLoads(raw, e);
    FilledValue(raw.fields, field, e);
    assert RecordName(raw.fields) == Text("other");
    KeptName(raw.fields, "other", e);
    ValidIff("other", h);
    FencedIff(run);
    UpdateRaisesIff(disk, "demo", Setting(field, value), allowCleanup, h);
    UpdateReadsBackIff(disk, "demo", Setting(field, value), allowCleanup, h);
    NormalizedName(raw, e);
    UpdateReturns(disk, "demo", Setting(field, value), allowCleanup, h);
  }

  lemma UpdateReturns(disk: Disk, name: string, mutate: Mutator, allowCleanup: bool, h: Host)
    requires Updated(disk, name, mutate, allowCleanup, h).Some?
    ensures Loaded(mutate(Load(disk, name, h).value).value, Under(name, h)) ==
            Some(Updated(disk, name, mutate, allowCleanup, h).value.returned)
  {
    hide Loaded, StoredRun;
  }

  /** An update that sets a field leaves the record of demo as it was, when demo.json carries the name other. */
  lemma MisnamedUpdateIsLost(h: Host)
    requires LawfulHost(h) && ValidName("demo", h) && ValidName("other", h)
    ensures var disk := Misnamed(Text("other"));
            var w := Updated(disk, "demo", Setting(UpdatedAt, Text("later")), false, h);
            && w.Some? && w.value.own == "other" && Load(w.value.disk, "demo", h) == Load(disk, "demo", h)
            && Load(w.value.disk, "demo", h) != Some(w.value.returned)
  {
    hide Loaded, LawfulHost, ValidName, Updated, Truthy;
    var disk := Misnamed(Text("other"));
    NameIsUsed("other");
    MisnamedLoads(Text("other"), h);
    MisnamedUpdate(UpdatedAt, Text("later"), false, h);
    UpdateReadsBackIff(disk, "demo", Setting(UpdatedAt, Text("later")), false, h);
  }

  /** A fence put up on that record does not stop updates of demo. */
  lemma MisnamedFenceIsMissed(h: Host)
    requires LawfulHost(h) && ValidName("demo", h) && ValidName("other", h)
    ensures var w := Updated(Misnamed(Text("other")), "demo", Setting(ResourceCleanup, IN_PROGRESS), true, h);
            w.Some? && FencedRun(w.value.returned) && !Blocks(w.value.disk, "demo", h)
  {
    hide Load, LawfulHost, ValidName, Updated, Truthy, Blocks;
    var disk := Misnamed(Text("other"));
    NameIsUsed("other");
    MisnamedLoads(Text("other"), h);
    MisnamedUpdate(ResourceCleanup, IN_PROGRESS, true, h);
    FenceHoldsIff(disk, "demo", Setting(ResourceCleanup, IN_PROGRESS), h);
  }

  /** A name field that is a path, or no text at all, makes every update raise. */
  lemma UnwritableNamesRaise(name: Value, mutate: Mutator, allowCleanup: bool, h: Host)
    requires LawfulHost(h) && ValidName("demo", h) && KeepsName(mutate) && (name == Text("a/b") || name == Int(5))
    ensures Load(Misnamed(name), "demo", h).Some? && Updated(Misnamed(name), "demo", mutate, allowCleanup, h).None?
  {
    hide Loaded, LawfulHost, Updated, Misnamed;
    var e := Under("demo", h);
    MisnamedLoads(name, h);
    assert "a/b"[1] == '/';
    UpdateRaisesIff(Misnamed(name), "demo", mutate, allowCleanup, h);
  }
}
