/** The record object that applies transitions and edits its attempt log and cleanup record in place. */
module WorkerRecords {
  import opened Common
  import opened Lifecycle
  import opened Workers
  import opened LifecycleLaws
  import opened FieldLaws

  /** The sessions that a worker's cleanup record lists. */
  function ListedSessions(w: Worker): seq<SessionId> {
    if w.cleanup.Some? then GetOr(w.cleanup.value.sessions, []) else []
  }

  lemma OfferAllOne(w: Worker, t: Transition)
    ensures OfferAll(w, [t]) == Offer(w, t)
  {
    hide Offer;
    assert [t][1..] == [];
    assert OfferAll(Offer(w, t), []) == Offer(w, t);
  }

  class WorkerRecord {
    var slots: Worker

    constructor (id: WorkerId)
      ensures slots == DefaultWorker(id)
    {
      slots := DefaultWorker(id);
    }

    /** The attempt becomes the last one of the log, unless its id is listed. */
    method AppendAttempt(attempt: Attempt)
      modifies this
      ensures slots == AttemptAppended(old(slots), attempt)
      ensures slots == old(slots).(attemptLog := slots.attemptLog)
      ensures slots.Attempts() ==
              old(slots).Attempts() + if Listed(old(slots).Attempts(), attempt.id) then [] else [attempt]
    {
      var attempts := slots.Attempts();
      var i := 0;
      while i < |attempts|
        invariant 0 <= i <= |attempts|
        invariant forall j :: 0 <= j < i ==> attempts[j].id != attempt.id
      {
        if attempts[i].id == attempt.id { return; }
        i := i + 1;
      }
      slots := slots.(attemptLog := Some(attempts + [attempt]));
    }

    /** Exactly the attempts with the finalized id are finished, in place. */
    method FinalizeAttempt(f: Finalization)
      modifies this
      ensures slots == AttemptFinalized(old(slots), Some(f))
      ensures slots == old(slots).(attemptLog := slots.attemptLog)
      ensures FinishedIn(old(slots).Attempts(), Some(f), slots.Attempts())
    {
      FinalizedShows(slots, Some(f));
      if f.attemptId == NoId { return; }
      var attempts := slots.Attempts();
      var finalized: seq<Attempt> := [];
      var found := false;
      for i := 0 to |attempts|
        invariant |finalized| == i
        invariant finalized == FinalizedAttempts(attempts, f)[..i]
        invariant if found then attempts != [] else finalized == attempts[..i]
      {
        if attempts[i].id == f.attemptId {
          finalized := finalized + [FinalizedAttempt(attempts[i], f)];
          found := true;
        } else {
          finalized := finalized + [attempts[i]];
        }
      }
      assert finalized == FinalizedAttempts(attempts, f);
      if found {
        slots := slots.(attemptLog := Some(finalized));
      } else {
        assert finalized == attempts;
      }
    }

    /** Afterwards the cleanup is requested and not done, and lists what it listed before and then the session, once;
        nothing else of the worker changes. */
    method RememberSessionForCleanup(session: SessionId)
      modifies this
      ensures slots == SessionRemembered(old(slots), session)
      ensures slots == old(slots).(cleanup := slots.cleanup)
      ensures slots.cleanup.Some? && slots.cleanup.value.requested && !slots.cleanup.value.deleted
      ensures var before := old(slots).cleanup;
              && slots.cleanup.value.verified == (if before.Some? then before.value.verified else None)
              && slots.cleanup.value.error == (if before.Some? then before.value.error else None)
      ensures slots.cleanup.value.sessions.Some?
      ensures var before, after := ListedSessions(old(slots)), ListedSessions(slots);
              && before <= after && (NoDuplicates(before) ==> NoDuplicates(after))
              && forall s :: s in after <==> s in before || (s == session && session != "")
    {
      slots := EnsureCleanup(slots);
      var cleanup := slots.cleanup.value.(requested := true, deleted := false);
      var sessions := GetOr(cleanup.sessions, []);
      if session != "" && session !in sessions {
        sessions := sessions + [session];
      }
      slots := slots.(cleanup := Some(cleanup.(sessions := Some(sessions))));
    }

    /** Replaces the slots with the reduced worker; raises (ok is false) for an illegal transition other than a
        snapshot, and changes nothing for any illegal one. A legal one shows its payload field by field and finishes
        what it finalizes; the state moves along the table, and an accepted abort stays. */
    method ApplyTransition(t: Transition) returns (ok: bool)
      modifies this
      ensures slots == Offer(old(slots), t)
      ensures ok <==> Legal(old(slots), t) || t.payload.SnapshotApplied?
      ensures !t.payload.SnapshotApplied? ==> (ok <==> Accepts(old(slots), t.payload))
      ensures !Legal(old(slots), t) ==> slots == old(slots)
      ensures Legal(old(slots), t) && !t.payload.SnapshotApplied? ==> Shown(old(slots), t, slots)
      ensures AllowedMove(old(slots).lifecycle, slots.lifecycle)
      ensures Final(old(slots).lifecycle) ==> slots.lifecycle == old(slots).lifecycle
      ensures old(slots).AcceptedAbort() ==> slots.AcceptedAbort()
    {
      hide Reduce, AllowedMove, DeclaredEdge, Shown, Legal, Accepts;
      if !t.payload.SnapshotApplied? { LegalIff(slots, t); }
      if Legal(slots, t) && !t.payload.SnapshotApplied? { OfferShows(slots, t); }
      StepFollowsTable(slots, t);
      FinalStatesAbsorb(slots, [t]);
      OfferAllOne(slots, t);
      if slots.AcceptedAbort() { AcceptedAbortStep(slots, t); }
      var outcome := Apply(slots, t);
      match outcome {
        case Applied(w) =>
          slots := w;
          ok := true;
        case Skipped(stale) =>
          ok := stale;
      }
    }
  }
}
