/** Deleting the sessions created for workers, and finding the ones that still have to be deleted. */
module CleanupRecovery {
  import opened Common
  import opened Workers
  import opened DependencyAnalysis
  import opened RemoteJournal
  import Json

  // ----- Deleting and verifying -----

  datatype Response = Answered | Refused(status: Option<nat>, error: string)

  /** What the server says to deleting a session and then reading it. */
  datatype Answers = Answers(delete: Response, read: Response)

  predicate Gone(r: Response) { r.Refused? && r.status == Some(404) }

  function DeleteError(a: Answers): Option<string> {
    if a.delete.Refused? && !Gone(a.delete) then Some(a.delete.error)
    else if Gone(a.read) then None
    else if a.read.Refused? then Some(a.read.error)
    else Some("delete verification failed; session is still readable")
  }

  datatype Disposal = Disposal(verified: seq<SessionId>, errors: seq<(SessionId, string)>)

  function DisposalOf(ids: seq<SessionId>, answers: nat -> Answers): Disposal {
    if ids == [] then Disposal([], [])
    else
      var n := |ids| - 1;
      var d := DisposalOf(ids[..n], answers);
      match DeleteError(answers(n))
      case None => d.(verified := d.verified + [ids[n]])
      case Some(error) => d.(errors := d.errors + [(ids[n], error)])
  }

  /** Verifies exactly the sessions that are confirmed gone; the first complaint comes first among the errors. */
  method DisposeSessions(ids: seq<SessionId>, answers: nat -> Answers)
      returns (deleted: seq<SessionId>, verified: seq<SessionId>, errors: seq<(SessionId, string)>)
    ensures Disposal(verified, errors) == DisposalOf(ids, answers) && deleted == verified
    ensures forall s :: s in verified <==> Confirmed(ids, answers, s)
    ensures FirstComplaint(|ids|, answers, if errors != [] then Some(errors[0].1) else None)
  {
    DisposalTells(ids, answers);
    forall s ensures s in DisposalOf(ids, answers).verified <==> Confirmed(ids, answers, s) {
      VerifiedMeansGone(ids, answers, s);
    }
    hide Confirmed, FirstComplaint;
    deleted, verified, errors := [], [], [];
    for i := 0 to |ids|
      invariant Disposal(verified, errors) == DisposalOf(ids[..i], answers) && deleted == verified
    {
      assert ids[..i + 1][..i] == ids[..i];
      var error := DeleteError(answers(i));
      if error.Some? {
        errors := errors + [(ids[i], error.value)];
      } else {
        deleted := deleted + [ids[i]];
        verified := verified + [ids[i]];
      }
    }
    assert ids[..|ids|] == ids;
  }

  function Outside(ids: seq<SessionId>, verified: seq<SessionId>): seq<SessionId> {
    if ids == [] then []
    else
      var n := |ids| - 1;
      Outside(ids[..n], verified) + if ids[n] in verified then [] else [ids[n]]
  }

  /** The cleanup record that replaces the worker's own after an attempt to delete ids. */
  function CleanedUp(base: Option<Cleanup>, ids: seq<SessionId>, answers: nat -> Answers): Cleanup {
    var d := DisposalOf(ids, answers);
    var pending := Outside(ids, d.verified);
    Cleanup(if base.Some? then base.value.requested else true,
            d.verified != [] && d.errors == [],
            if pending != [] then Some(pending) else None,
            if |d.verified| > 1 || (d.verified != [] && d.errors != []) then Some(d.verified) else None,
            if d.errors != [] then Some(d.errors[0].1) else None)
  }

  /** What the server says against a session being gone: it refused to delete it, or to read it with anything but not
      found, or it still reads it. */
  predicate Complains(a: Answers, error: string) {
    if a.delete.Refused? && a.delete.status != Some(404) then error == a.delete.error
    else if a.read.Refused? then a.read.status != Some(404) && error == a.read.error
    else error == "delete verification failed; session is still readable"
  }

  lemma ComplaintIff(a: Answers)
    ensures DeleteError(a).None? <==> ConfirmsGone(a)
    ensures forall error :: DeleteError(a) == Some(error) <==> !ConfirmsGone(a) && Complains(a, error)
  {
  }

  /** The first session that is not confirmed gone gives the error. */
  ghost predicate FirstComplaint(n: nat, answers: nat -> Answers, error: Option<string>) {
    match error
    case None => forall i :: 0 <= i < n ==> ConfirmsGone(answers(i))
    case Some(text) =>
      exists i :: 0 <= i < n && !ConfirmsGone(answers(i)) && Complains(answers(i), text)
                  && forall j :: 0 <= j < i ==> ConfirmsGone(answers(j))
  }

  lemma {:induction false} DisposalTells(ids: seq<SessionId>, answers: nat -> Answers)
    ensures var d := DisposalOf(ids, answers);
            && FirstComplaint(|ids|, answers, if d.errors != [] then Some(d.errors[0].1) else None)
            && (d.verified != [] <==> exists i :: 0 <= i < |ids| && ConfirmsGone(answers(i)))
            && forall k :: 0 <= k < |d.errors| ==> d.errors[k].0 in ids
  {
    hide ConfirmsGone, Complains, DeleteError;
    if ids != [] {
      var n := |ids| - 1;
      DisposalTells(ids[..n], answers);
      assert ids == ids[..n] + [ids[n]];
      ComplaintIff(answers(n));
    }
  }

  /** The verified and the pending sessions keep the order of the list. */
  lemma {:induction false} DisposalKeepsOrder(a: seq<SessionId>, b: seq<SessionId>, answers: nat -> Answers,
                                              later: nat -> Answers)
    requires forall i: nat :: later(i) == answers(|a| + i)
    ensures DisposalOf(a + b, answers).verified == DisposalOf(a, answers).verified + DisposalOf(b, later).verified
    ensures DisposalOf(a + b, answers).errors == DisposalOf(a, answers).errors + DisposalOf(b, later).errors
    decreases |b|
  {
    hide DeleteError;
    if b == [] {
      assert a + b == a;
    } else {
      var n := |b| - 1;
      assert (a + b)[..|a + b| - 1] == a + b[..n];
      DisposalKeepsOrder(a, b[..n], answers, later);
    }
  }

  lemma {:induction false} OutsideKeepsOrder(a: seq<SessionId>, b: seq<SessionId>, verified: seq<SessionId>)
    ensures Outside(a + b, verified) == Outside(a, verified) + Outside(b, verified)
    decreases |b|
  {
    if b == [] {
      assert a + b == a;
    } else {
      var n := |b| - 1;
      assert (a + b)[..|a + b| - 1] == a + b[..n];
      OutsideKeepsOrder(a, b[..n], verified);
    }
  }

  /** The record says what is left to delete, whether all went well, which sessions went, and the first complaint; it is
      done exactly if there was something to delete and the server confirmed each session gone. */
  ghost predicate CleanupTells(base: Option<Cleanup>, ids: seq<SessionId>, answers: nat -> Answers, c: Cleanup,
                               gone: seq<SessionId>) {
    && c.requested == (base.Some? ==> base.value.requested)
    && (c.deleted <==> ids != [] && forall i :: 0 <= i < |ids| ==> ConfirmsGone(answers(i)))
    && FirstComplaint(|ids|, answers, c.error)
    && (c.sessions.None? <==> forall s :: s in ids ==> Confirmed(ids, answers, s))
    && (c.sessions.Some? ==> forall s :: s in c.sessions.value <==> s in ids && !Confirmed(ids, answers, s))
    && (forall s :: s in gone <==> Confirmed(ids, answers, s))
    && c.verified == if |gone| > 1 || (gone != [] && c.error.Some?) then Some(gone) else None
  }

  lemma CleanedUpTells(base: Option<Cleanup>, ids: seq<SessionId>, answers: nat -> Answers)
    ensures CleanupTells(base, ids, answers, CleanedUp(base, ids, answers), DisposalOf(ids, answers).verified)
  {
    hide DisposalOf, Outside, ConfirmsGone, Complains, Confirmed;
    var d := DisposalOf(ids, answers);
    DisposalTells(ids, answers);
    forall s
      ensures s in d.verified <==> Confirmed(ids, answers, s)
      ensures s in Outside(ids, d.verified) <==> s in ids && !Confirmed(ids, answers, s)
    {
      VerifiedMeansGone(ids, answers, s);
      OutsideExactly(ids, d.verified, s);
    }
    NonEmptyHasFirst(Outside(ids, d.verified));
    var c := CleanedUp(base, ids, answers);
    if forall i :: 0 <= i < |ids| ==> ConfirmsGone(answers(i)) { assert d.errors == []; }
    if ids != [] && c.error.None? { assert ConfirmsGone(answers(0)); }
    if ids == [] { assert d.verified == []; }
    assert c.deleted <==> ids != [] && forall i :: 0 <= i < |ids| ==> ConfirmsGone(answers(i));
    assert c.sessions.None? <==> Outside(ids, d.verified) == [];
  }

  method CleanupCreatedWorkerSessions(w: Worker, ids: seq<SessionId>, answers: nat -> Answers)
      returns (cleanup: Cleanup, deleted: seq<SessionId>, error: Option<string>)
    ensures cleanup == CleanedUp(w.cleanup, ids, answers)
    ensures deleted == DisposalOf(ids, answers).verified
    ensures error.Some? <==> DisposalOf(ids, answers).errors != []
    ensures CleanupTells(w.cleanup, ids, answers, cleanup, deleted) && error == cleanup.error
  {
    CleanedUpTells(w.cleanup, ids, answers);
    hide CleanupTells;
    cleanup := EnsureCleanup(w).cleanup.value;
    var verified, errors;
    deleted, verified, errors := DisposeSessions(ids, answers);
    var pending: seq<SessionId> := [];
    for i := 0 to |ids|
      invariant pending == Outside(ids[..i], verified)
    {
      assert ids[..i + 1][..i] == ids[..i];
      if ids[i] !in verified { pending := pending + [ids[i]]; }
    }
    assert ids[..|ids|] == ids;
    cleanup := cleanup.(deleted := verified != [] && errors == []);
    cleanup := cleanup.(error := if errors != [] then Some(errors[0].1) else None);
    cleanup := cleanup.(sessions := if pending != [] then Some(pending) else None);
    if verified != [] && (|verified| > 1 || errors != []) {
      cleanup := cleanup.(verified := Some(verified));
    } else {
      cleanup := cleanup.(verified := None);
    }
    error := if errors != [] then Some(errors[0].1) else None;
  }

  /** The sessions that a cleanup record still wants deleted. */
  function Wanted(c: Option<Cleanup>): seq<SessionId> {
    if c.None? || c.value.deleted then [] else StringsOf(GetOr(c.value.sessions, []))
  }

  /** string_list: the non-empty strings of a list. */
  function StringsOf(ids: seq<SessionId>): seq<SessionId> {
    Outside(ids, [""])
  }

  lemma {:induction false} OutsideExactly(ids: seq<SessionId>, verified: seq<SessionId>, s: SessionId)
    ensures s in Outside(ids, verified) <==> s in ids && s !in verified
  {
    if ids != [] {
      var n := |ids| - 1;
      OutsideExactly(ids[..n], verified, s);
      assert ids == ids[..n] + [ids[n]];
    }
  }

  /** The delete went through or the session was gone already, and reading it finds nothing. */
  predicate ConfirmsGone(a: Answers) {
    Gone(a.read) && (a.delete.Answered? || Gone(a.delete))
  }

  lemma NoErrorMeansGone(a: Answers)
    ensures DeleteError(a).None? <==> ConfirmsGone(a)
  {
  }

  /** The server confirmed at least once that the session is gone. */
  ghost predicate Confirmed(ids: seq<SessionId>, answers: nat -> Answers, s: SessionId) {
    exists i :: 0 <= i < |ids| && ids[i] == s && ConfirmsGone(answers(i))
  }

  lemma {:induction false} VerifiedMeansGone(ids: seq<SessionId>, answers: nat -> Answers, s: SessionId)
    ensures s in DisposalOf(ids, answers).verified <==> Confirmed(ids, answers, s)
    ensures s in ids && s !in DisposalOf(ids, answers).verified ==> DisposalOf(ids, answers).errors != []
  {
    hide Confirmed, ConfirmsGone, DeleteError;
    if ids == [] {
      NothingConfirmed(answers, s);
    } else {
      var n := |ids| - 1;
      VerifiedMeansGone(ids[..n], answers, s);
      assert ids == ids[..n] + [ids[n]];
      NoErrorMeansGone(answers(n));
      ConfirmedLast(ids, answers, s);
    }
  }

  lemma NothingConfirmed(answers: nat -> Answers, s: SessionId)
    ensures !Confirmed([], answers, s)
  {
  }

  lemma ConfirmedLast(ids: seq<SessionId>, answers: nat -> Answers, s: SessionId)
    requires ids != []
    ensures var n := |ids| - 1;
            Confirmed(ids, answers, s) <==> Confirmed(ids[..n], answers, s) || (ids[n] == s && ConfirmsGone(answers(n)))
  {
    hide ConfirmsGone;
    var n := |ids| - 1;
    if Confirmed(ids[..n], answers, s) {
      var i :| 0 <= i < n && ids[..n][i] == s && ConfirmsGone(answers(i));
      assert ids[i] == s;
    }
    if Confirmed(ids, answers, s) {
      var i :| 0 <= i < |ids| && ids[i] == s && ConfirmsGone(answers(i));
      if i < n { assert ids[..n][i] == s; }
    }
  }

  /** After an attempt a session is still wanted exactly when it was attempted and never confirmed gone. */
  lemma WantedAfterCleanup(base: Option<Cleanup>, ids: seq<SessionId>, answers: nat -> Answers, s: SessionId)
    requires s != ""
    ensures s in Wanted(Some(CleanedUp(base, ids, answers))) <==> s in ids && !Confirmed(ids, answers, s)
  {
    hide DisposalOf, Outside, Confirmed;
    var d := DisposalOf(ids, answers);
    VerifiedMeansGone(ids, answers, s);
    var pending := Outside(ids, d.verified);
    OutsideExactly(ids, d.verified, s);
    OutsideExactly(pending, [""], s);
    OutsideNothing([""]);
    if s in pending { assert pending != []; }
  }

  lemma OutsideNothing(verified: seq<SessionId>)
    ensures Outside([], verified) == []
  {
  }

  // ----- Finding what is left to delete -----

  const CREATE_KIND := "worker_session_create"

  const WORKER_KEY := FieldKey("worker_id")
  const CLEANUP_KEY := FieldKey("cleanup_requested")
  const SESSION_KEY := FieldKey("session_id")
  const SESSIONS_KEY := FieldKey("created_session_ids")

  datatype Creation = Creation(worker: WorkerId, cleanup: bool, sessions: seq<SessionId>)

  function TextsOf(v: Json.Value): seq<SessionId> {
    if !v.List? then [] else TextItems(v.items)
  }

  function TextItems(items: seq<Json.Value>): seq<SessionId> {
    if items == [] then []
    else (if Json.NonEmptyText(items[0]) then [items[0].text] else []) + TextItems(items[1..])
  }

  /** Worker ids are written as integers here, since they matter only through equality. */
  function CreationOf(e: Entry): Option<Creation> {
    if Lookup(e, KindKey) != Json.Text(CREATE_KIND) || !Lookup(e, WORKER_KEY).Int? then None
    else
      var listed := AppendAllUnique([], TextsOf(Lookup(e, SESSIONS_KEY)));
      var session := Lookup(e, SESSION_KEY);
      Some(Creation(Lookup(e, WORKER_KEY).n, Lookup(e, CLEANUP_KEY) == Json.Bool(true),
                    if Json.NonEmptyText(session) then AppendUnique(listed, session.text) else listed))
  }

  type SessionMap = map<WorkerId, seq<SessionId>>

  predicate Lists(m: SessionMap, w: WorkerId, s: SessionId) {
    w in m && s in m[w]
  }

  function ListFor(m: SessionMap, w: WorkerId): seq<SessionId> {
    if w in m then m[w] else []
  }

  function Added(m: SessionMap, w: WorkerId, ids: seq<SessionId>): SessionMap {
    m[w := AppendAllUnique(ListFor(m, w), ids)]
  }

  function NonEmpty(m: SessionMap): SessionMap {
    map w | w in m && m[w] != [] :: m[w]
  }

  function CreationsIn(entries: seq<Entry>): SessionMap {
    if entries == [] then map[]
    else
      var n := |entries| - 1;
      var m := CreationsIn(entries[..n]);
      match CreationOf(entries[n])
      case None => m
      case Some(c) => if c.cleanup then Added(m, c.worker, c.sessions) else m
  }

  const RECOVERABLE_STATES: set<OutboxState> := {RemoteSucceeded, AppliedState}

  function RecoverableCreations(items: seq<Item>): SessionMap {
    NonEmpty(CreationsIn(PendingOf(items, Some(CREATE_KIND), RECOVERABLE_STATES)))
  }

  function WantedOf(workers: WorkerMap, w: WorkerId): seq<SessionId> {
    if w in workers then Wanted(workers[w].cleanup) else []
  }

  function WantedIn(workers: WorkerMap, ids: seq<WorkerId>): SessionMap {
    if ids == [] then map[]
    else
      var n := |ids| - 1;
      var m := WantedIn(workers, ids[..n]);
      if WantedOf(workers, ids[n]) != [] then Added(m, ids[n], WantedOf(workers, ids[n])) else m
  }

  /** b added to a, list by list. */
  function Joined(a: SessionMap, b: SessionMap, ids: seq<WorkerId>): SessionMap {
    if ids == [] then a
    else
      var n := |ids| - 1;
      Added(Joined(a, b, ids[..n]), ids[n], ListFor(b, ids[n]))
  }

  function RecoverableByWorker(workers: WorkerMap, items: seq<Item>): SessionMap {
    var creations := RecoverableCreations(items);
    NonEmpty(Joined(WantedIn(workers, SortedIds(workers.Keys)), creations, SortedIds(creations.Keys)))
  }

  /** The cleanup plan: what this run remembers creating, and what the persisted run shows. */
  function CleanupPlan(remembered: SessionMap, workers: WorkerMap, items: seq<Item>): SessionMap {
    var recoverable := RecoverableByWorker(workers, items);
    NonEmpty(Joined(remembered, recoverable, SortedIds(recoverable.Keys)))
  }

  method AddAll(m: SessionMap, w: WorkerId, ids: seq<SessionId>) returns (r: SessionMap)
    ensures r == Added(m, w, ids)
  {
    var values := ListFor(m, w);
    for i := 0 to |ids|
      invariant AppendAllUnique(values, ids[i..]) == AppendAllUnique(ListFor(m, w), ids)
    {
      assert ids[i..][1..] == ids[i + 1..];
      if ids[i] !in values { values := values + [ids[i]]; }
    }
    r := m[w := values];
  }

  /** Lists exactly the sessions that succeeded or applied creations for cleanup name. */
  method FindRecoverableCreations(items: seq<Item>) returns (r: SessionMap)
    ensures r == RecoverableCreations(items)
    ensures forall w, s :: Lists(r, w, s) <==> InJournal(items, w, s)
  {
    forall w, s ensures Lists(RecoverableCreations(items), w, s) <==> InJournal(items, w, s) {
      CreationsExactly(items, w, s);
    }
    hide CreationOf, Added, Lists, InJournal;
    var entries := PendingOf(items, Some(CREATE_KIND), RECOVERABLE_STATES);
    var m: SessionMap := map[];
    for i := 0 to |entries|
      invariant m == CreationsIn(entries[..i])
    {
      assert entries[..i + 1][..i] == entries[..i];
      var c := CreationOf(entries[i]);
      if c.Some? && c.value.cleanup { m := AddAll(m, c.value.worker, c.value.sessions); }
    }
    assert entries[..|entries|] == entries;
    r := NonEmpty(m);
  }

  method Join(a: SessionMap, b: SessionMap, ids: seq<WorkerId>) returns (r: SessionMap)
    ensures r == Joined(a, b, ids)
  {
    hide Added;
    r := a;
    for i := 0 to |ids|
      invariant r == Joined(a, b, ids[..i])
    {
      assert ids[..i + 1][..i] == ids[..i];
      r := AddAll(r, ids[i], ListFor(b, ids[i]));
    }
    assert ids[..|ids|] == ids;
  }

  method FindWanted(workers: WorkerMap, ids: seq<WorkerId>) returns (m: SessionMap)
    ensures m == WantedIn(workers, ids)
  {
    hide WantedOf, Added;
    m := map[];
    for i := 0 to |ids|
      invariant m == WantedIn(workers, ids[..i])
    {
      assert ids[..i + 1][..i] == ids[..i];
      var wanted := WantedOf(workers, ids[i]);
      if wanted != [] { m := AddAll(m, ids[i], wanted); }
    }
    assert ids[..|ids|] == ids;
  }

  /** Lists exactly the sessions that a worker's record wants, or that a recoverable journal entry names. */
  method FindRecoverable(workers: WorkerMap, items: seq<Item>) returns (r: SessionMap)
    ensures r == RecoverableByWorker(workers, items)
    ensures forall w, s :: Lists(r, w, s) <==> (w in workers && Wants(workers[w].cleanup, s)) || InJournal(items, w, s)
  {
    forall w, s ensures Lists(RecoverableByWorker(workers, items), w, s) <==>
                        (w in workers && Wants(workers[w].cleanup, s)) || InJournal(items, w, s) {
      RecoverableExactly(workers, items, w, s);
      if w in workers { WantedIff(workers[w].cleanup, s); }
    }
    hide Lists, Wants, InJournal, RecoverableCreations, WantedIn, Joined, NonEmpty;
    var m := FindWanted(workers, SortedIds(workers.Keys));
    var creations := FindRecoverableCreations(items);
    m := Join(m, creations, SortedIds(creations.Keys));
    r := NonEmpty(m);
  }

  /** Attempts exactly the remembered and the recoverable sessions, each once. */
  method PlanCleanup(remembered: SessionMap, workers: WorkerMap, items: seq<Item>) returns (plan: SessionMap)
    ensures plan == CleanupPlan(remembered, workers, items)
    ensures forall w, s :: Lists(plan, w, s) <==> Lists(remembered, w, s) || Recoverable(workers, items, w, s)
    ensures Distinct(remembered) ==> Distinct(plan)
  {
    forall w, s ensures Lists(CleanupPlan(remembered, workers, items), w, s) <==>
                        Lists(remembered, w, s) || Recoverable(workers, items, w, s) {
      PlanExactly(remembered, workers, items, w, s);
    }
    if Distinct(remembered) { PlanListsOnce(remembered, workers, items); }
    hide Lists, Recoverable, Distinct, Joined, RecoverableByWorker;
    var recoverable := FindRecoverable(workers, items);
    var m := Join(remembered, recoverable, SortedIds(recoverable.Keys));
    plan := NonEmpty(m);
  }

  // ----- The plan misses nothing -----

  lemma AddedLists(m: SessionMap, x: WorkerId, ids: seq<SessionId>, w: WorkerId, s: SessionId)
    ensures Lists(Added(m, x, ids), w, s) <==> Lists(m, w, s) || (w == x && s in ids)
  {
  }

  lemma NonEmptyLists(m: SessionMap, w: WorkerId, s: SessionId)
    ensures Lists(NonEmpty(m), w, s) <==> Lists(m, w, s)
  {
  }

  /** The entry is a creation for cleanup by the worker, and names the session, alone or in its list. */
  predicate Creates(e: Entry, w: WorkerId, s: SessionId) {
    && Lookup(e, KindKey) == Json.Text(CREATE_KIND) && Lookup(e, WORKER_KEY) == Json.Int(w)
    && Lookup(e, CLEANUP_KEY) == Json.Bool(true) && s != ""
    && (Lookup(e, SESSION_KEY) == Json.Text(s)
        || (Lookup(e, SESSIONS_KEY).List? && Json.Text(s) in Lookup(e, SESSIONS_KEY).items))
  }

  lemma {:induction false} TextItemsAre(items: seq<Json.Value>, s: SessionId)
    ensures s in TextItems(items) <==> s != "" && Json.Text(s) in items
    decreases |items|
  {
    if items != [] {
      TextItemsAre(items[1..], s);
      assert items == [items[0]] + items[1..];
    }
  }

  lemma CreatesIff(e: Entry, w: WorkerId, s: SessionId)
    ensures var c := CreationOf(e);
            Creates(e, w, s) <==> c.Some? && c.value.cleanup && c.value.worker == w && s in c.value.sessions
  {
    if Lookup(e, SESSIONS_KEY).List? { TextItemsAre(Lookup(e, SESSIONS_KEY).items, s); }
  }

  lemma {:induction false} CreationsList(entries: seq<Entry>, w: WorkerId, s: SessionId)
    ensures Lists(CreationsIn(entries), w, s) <==> exists e :: e in entries && Creates(e, w, s)
  {
    hide CreationOf, Lists, Added, Creates;
    if entries == [] {
      NothingListed(w, s);
    } else {
      var n := |entries| - 1;
      CreationsList(entries[..n], w, s);
      assert entries == entries[..n] + [entries[n]];
      var c := CreationOf(entries[n]);
      CreatesIff(entries[n], w, s);
      if c.Some? { AddedLists(CreationsIn(entries[..n]), c.value.worker, c.value.sessions, w, s); }
      assert forall e :: e in entries <==> e in entries[..n] || e == entries[n];
      assert Creates(entries[n], w, s) ==> entries[n] in entries;
    }
  }

  lemma NothingListed(w: WorkerId, s: SessionId)
    ensures !Lists(map[], w, s)
  {
  }

  lemma {:induction false} WantedList(workers: WorkerMap, ids: seq<WorkerId>, w: WorkerId, s: SessionId)
    ensures Lists(WantedIn(workers, ids), w, s) <==> w in ids && s in WantedOf(workers, w)
  {
    hide WantedOf, Lists, Added;
    if ids == [] {
      NothingListed(w, s);
    } else {
      var n := |ids| - 1;
      WantedList(workers, ids[..n], w, s);
      assert ids == ids[..n] + [ids[n]];
      AddedLists(WantedIn(workers, ids[..n]), ids[n], WantedOf(workers, ids[n]), w, s);
    }
  }

  lemma {:induction false} JoinedLists(a: SessionMap, b: SessionMap, ids: seq<WorkerId>, w: WorkerId, s: SessionId)
    ensures Lists(Joined(a, b, ids), w, s) <==> Lists(a, w, s) || (w in ids && s in ListFor(b, w))
  {
    hide ListFor, Lists, Added;
    if ids != [] {
      var n := |ids| - 1;
      JoinedLists(a, b, ids[..n], w, s);
      assert ids == ids[..n] + [ids[n]];
      AddedLists(Joined(a, b, ids[..n]), ids[n], ListFor(b, ids[n]), w, s);
    }
  }

  /** The worker's cleanup record is not done and lists the session. */
  predicate Wants(c: Option<Cleanup>, s: SessionId) {
    c.Some? && !c.value.deleted && c.value.sessions.Some? && s in c.value.sessions.value && s != ""
  }

  lemma WantedIff(c: Option<Cleanup>, s: SessionId)
    ensures s in Wanted(c) <==> Wants(c, s)
  {
    if c.Some? { OutsideExactly(GetOr(c.value.sessions, []), [""], s); }
  }

  /** A session is still to be deleted: the worker's cleanup record wants it, or a succeeded or applied creation that
      asked for cleanup names it. */
  ghost predicate Recoverable(workers: WorkerMap, items: seq<Item>, w: WorkerId, s: SessionId) {
    s in WantedOf(workers, w) || InJournal(items, w, s)
  }

  ghost predicate InJournal(items: seq<Item>, w: WorkerId, s: SessionId) {
    exists e :: Dict(e) in items && Requested(e, Some(CREATE_KIND), RECOVERABLE_STATES) && Creates(e, w, s)
  }

  lemma CreationsExactly(items: seq<Item>, w: WorkerId, s: SessionId)
    ensures Lists(RecoverableCreations(items), w, s) <==> InJournal(items, w, s)
  {
    hide Requested, Creates, Lists, CreationsIn;
    var entries := PendingOf(items, Some(CREATE_KIND), RECOVERABLE_STATES);
    CreationsList(entries, w, s);
    NonEmptyLists(CreationsIn(entries), w, s);
    forall e ensures e in entries <==> Dict(e) in items && Requested(e, Some(CREATE_KIND), RECOVERABLE_STATES) {
      PendingExactly(items, Some(CREATE_KIND), RECOVERABLE_STATES, e);
    }
  }

  lemma ListedFor(m: SessionMap, w: WorkerId, s: SessionId)
    ensures w in SortedIds(m.Keys) && s in ListFor(m, w) <==> Lists(m, w, s)
  {
  }

  lemma WantedIsListed(workers: WorkerMap, w: WorkerId, s: SessionId)
    ensures Lists(WantedIn(workers, SortedIds(workers.Keys)), w, s) <==> s in WantedOf(workers, w)
  {
    hide Lists, Wanted;
    WantedList(workers, SortedIds(workers.Keys), w, s);
  }

  /** The recoverable map lists exactly the sessions that are still to be deleted. */
  lemma RecoverableExactly(workers: WorkerMap, items: seq<Item>, w: WorkerId, s: SessionId)
    ensures Lists(RecoverableByWorker(workers, items), w, s) <==> Recoverable(workers, items, w, s)
  {
    hide Lists, WantedOf, InJournal, RecoverableCreations, WantedIn, Joined, ListFor, NonEmpty;
    var creations := RecoverableCreations(items);
    CreationsExactly(items, w, s);
    WantedIsListed(workers, w, s);
    var wanted := WantedIn(workers, SortedIds(workers.Keys));
    JoinedLists(wanted, creations, SortedIds(creations.Keys), w, s);
    ListedFor(creations, w, s);
    NonEmptyLists(Joined(wanted, creations, SortedIds(creations.Keys)), w, s);
  }

  /** No list is empty or lists a session twice, and each known list is continued. */
  ghost predicate Distinct(m: SessionMap) {
    forall w :: w in m ==> NoDuplicates(m[w])
  }

  lemma {:induction false} JoinedIsDistinct(a: SessionMap, b: SessionMap, ids: seq<WorkerId>)
    requires Distinct(a)
    ensures Distinct(Joined(a, b, ids)) && forall w :: w in a ==> w in Joined(a, b, ids) && a[w] <= Joined(a, b, ids)[w]
  {
    if ids != [] {
      var n := |ids| - 1;
      JoinedIsDistinct(a, b, ids[..n]);
      AddedIsDistinct(Joined(a, b, ids[..n]), ids[n], ListFor(b, ids[n]));
    }
  }

  lemma AddedIsDistinct(m: SessionMap, w: WorkerId, ids: seq<SessionId>)
    requires Distinct(m)
    ensures Distinct(Added(m, w, ids)) && ListFor(m, w) <= Added(m, w, ids)[w]
  {
    AppendedFirsts(ListFor(m, w), ids);
    var r := AppendAllUnique(ListFor(m, w), ids);
    AppendedIsDistinct(ListFor(m, w), ids);
  }

  lemma AppendedIsDistinct(s: seq<SessionId>, xs: seq<SessionId>)
    requires NoDuplicates(s)
    ensures NoDuplicates(AppendAllUnique(s, xs))
    decreases |xs|
  {
    if xs != [] { AppendedIsDistinct(AppendUnique(s, xs[0]), xs[1..]); }
  }

  /** A plan lists workers with something to delete only, each session once, the remembered ones first. */
  lemma PlanListsOnce(remembered: SessionMap, workers: WorkerMap, items: seq<Item>)
    requires Distinct(remembered)
    ensures var plan := CleanupPlan(remembered, workers, items);
            && Distinct(plan) && (forall w :: w in plan ==> plan[w] != [])
            && forall w :: w in remembered && remembered[w] != [] ==> w in plan && remembered[w] <= plan[w]
  {
    hide RecoverableByWorker;
    var recoverable := RecoverableByWorker(workers, items);
    JoinedIsDistinct(remembered, recoverable, SortedIds(recoverable.Keys));
  }

  /** A plan attempts exactly the remembered and the recoverable sessions. */
  lemma PlanExactly(remembered: SessionMap, workers: WorkerMap, items: seq<Item>, w: WorkerId, s: SessionId)
    ensures Lists(CleanupPlan(remembered, workers, items), w, s) <==>
            Lists(remembered, w, s) || Recoverable(workers, items, w, s)
  {
    hide Lists, RecoverableByWorker, Recoverable, Joined, ListFor, NonEmpty;
    var recoverable := RecoverableByWorker(workers, items);
    RecoverableExactly(workers, items, w, s);
    JoinedLists(remembered, recoverable, SortedIds(recoverable.Keys), w, s);
    ListedFor(recoverable, w, s);
    NonEmptyLists(Joined(remembered, recoverable, SortedIds(recoverable.Keys)), w, s);
  }
}
