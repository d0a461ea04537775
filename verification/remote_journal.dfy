/** The journal of remote mutations inside a run record, and the operations that edit it in place. */
module RemoteJournal {
  import opened Common
  import Json

  type EntryId = string

  datatype OutboxState = IntentState | RemoteSucceeded | AppliedState | Uncertain

  const ALL_STATES: set<OutboxState> := {IntentState, RemoteSucceeded, AppliedState, Uncertain}

  /** The field names that the journal itself reads or writes. */
  datatype Key =
    | IdKey | KindKey | StateKey | StatusKey | CleanupFailureKey | UncertainFailureKey | FieldKey(name: string)

  type Entry = map<Key, Json.Value>

  datatype Item = Dict(entry: Entry) | NonDict(value: Json.Value)

  /** The journal field of a run. */
  datatype Field = Missing | NotAList(value: Json.Value) | Items(items: seq<Item>)

  datatype Record = Record(id: EntryId, kind: string, fields: Entry)
  {
    predicate Valid() {
      id != "" && kind != "" && fields.Keys !! {IdKey, KindKey, StateKey}
    }
  }

  datatype MissingIntent = IgnoreMissing | RecordMissing

  function StateText(s: OutboxState): string {
    match s
    case IntentState => "intent"
    case RemoteSucceeded => "remote_succeeded"
    case AppliedState => "applied"
    case Uncertain => "uncertain"
  }

  function StateOfText(text: string): Option<OutboxState> {
    if text == "intent" then Some(IntentState)
    else if text == "remote_succeeded" then Some(RemoteSucceeded)
    else if text == "applied" then Some(AppliedState)
    else if text == "uncertain" then Some(Uncertain)
    else None
  }

  /** Entries from before outbox states: their status decides, and an unknown status counts as an intent. */
  function LegacyState(status: Json.Value): OutboxState {
    if !status.Text? then IntentState
    else if status.text == "created" then AppliedState
    else GetOr(StateOfText(status.text), IntentState)
  }

  function Lookup(e: Entry, k: Key): Json.Value {
    if k in e then e[k] else Json.Null
  }

  function EntryState(e: Entry): Option<OutboxState> {
    var stored := Lookup(e, StateKey);
    if stored.Text? then StateOfText(stored.text)
    else if stored != Json.Null then None
    else Some(LegacyState(Lookup(e, StatusKey)))
  }

  function EntryOf(r: Record, s: OutboxState): Entry {
    map[IdKey := Json.Text(r.id), KindKey := Json.Text(r.kind)] + r.fields + map[StateKey := Json.Text(StateText(s))]
  }

  /** What a record changes in an existing entry: everything but id and kind. */
  function UpdateOf(r: Record, s: OutboxState): Entry {
    EntryOf(r, s) - {IdKey, KindKey}
  }

  function UncertainUpdate(failure: Json.Value): Entry {
    map[StateKey := Json.Text(StateText(Uncertain)), StatusKey := Json.Text("uncertain"),
        UncertainFailureKey := failure]
  }

  predicate HasId(i: Item, id: EntryId) {
    i.Dict? && Lookup(i.entry, IdKey) == Json.Text(id)
  }

  function ItemsOf(f: Field): seq<Item> {
    if f.Items? then f.items else []
  }

  /** The first entry with an id is the one that an operation on the id changes. */
  function FirstWithId(items: seq<Item>, id: EntryId): (r: Option<nat>)
    ensures r.Some? ==>
              && r.value < |items| && HasId(items[r.value], id)
              && forall j :: 0 <= j < r.value ==> !HasId(items[j], id)
    ensures r.None? ==> forall j :: 0 <= j < |items| ==> !HasId(items[j], id)
  {
    if items == [] then None
    else if HasId(items[0], id) then Some(0)
    else match FirstWithId(items[1..], id) case None => None case Some(j) => Some(j + 1)
  }

  function Updated(items: seq<Item>, id: EntryId, update: Entry): seq<Item> {
    match FirstWithId(items, id)
    case None => items
    case Some(i) => items[i := Dict(items[i].entry + update)]
  }

  function WithoutId(items: seq<Item>, id: EntryId): seq<Item> {
    if items == [] then []
    else
      var n := |items| - 1;
      WithoutId(items[..n], id) + if HasId(items[n], id) then [] else [items[n]]
  }

  function AfterIntent(f: Field, r: Record): Field {
    Items(ItemsOf(f) + [Dict(EntryOf(r, IntentState))])
  }

  function AfterMark(f: Field, id: EntryId, r: Record, s: OutboxState, missing: MissingIntent): Field {
    var items := ItemsOf(f);
    if FirstWithId(items, id).None? && missing == RecordMissing then Items(items + [Dict(EntryOf(r, s))])
    else Items(Updated(items, id, UpdateOf(r, s)))
  }

  function AfterFinalize(f: Field, id: EntryId): Field {
    var remaining := WithoutId(ItemsOf(f), id);
    if remaining == [] then Missing else Items(remaining)
  }

  function AfterNote(f: Field, id: EntryId, update: Entry): Field {
    if f.Items? then Items(Updated(f.items, id, update)) else f
  }

  function AfterUncertain(f: Field, id: EntryId, failure: Json.Value): Field {
    AfterNote(f, id, UncertainUpdate(failure))
  }

  function AfterCleanupFailure(f: Field, id: EntryId, failure: Json.Value): Field {
    AfterNote(f, id, map[CleanupFailureKey := failure])
  }

  predicate Requested(e: Entry, kind: Option<string>, states: set<OutboxState>) {
    && (kind.Some? ==> Lookup(e, KindKey) == Json.Text(kind.value))
    && EntryState(e).Some? && EntryState(e).value in states
  }

  function PendingOf(items: seq<Item>, kind: Option<string>, states: set<OutboxState>): seq<Entry> {
    if items == [] then []
    else
      var n := |items| - 1;
      PendingOf(items[..n], kind, states)
      + if items[n].Dict? && Requested(items[n].entry, kind, states) then [items[n].entry] else []
  }

  /** In which state an entry is: the one that its state text names; without a state the one that its status names,
      where created is applied and anything unknown an intent; and none when the state is something else. */
  predicate ReadsAs(e: Entry, s: Option<OutboxState>) {
    var state, status := Lookup(e, StateKey), Lookup(e, StatusKey);
    if state.Text? then if s.Some? then state.text == StateText(s.value) else !NamesState(state.text)
    else if state != Json.Null then s.None?
    else
      && s.Some?
      && if status == Json.Text("created") then s.value == AppliedState
         else if status.Text? && NamesState(status.text) then status.text == StateText(s.value)
         else s.value == IntentState
  }

  predicate NamesState(text: string) {
    exists s: OutboxState :: StateText(s) == text
  }

  lemma TextNamesState(text: string)
    ensures StateOfText(text).Some? ==> StateText(StateOfText(text).value) == text
    ensures StateOfText(text).Some? <==> NamesState(text)
  {
    forall x: OutboxState ensures StateOfText(StateText(x)) == Some(x) { StateTextRoundTrip(x); }
  }

  lemma EntryReadsAs(e: Entry)
    ensures ReadsAs(e, EntryState(e))
  {
    hide StateText, StateOfText, NamesState;
    CreatedIsNoState();
    if Lookup(e, StateKey).Text? { TextNamesState(Lookup(e, StateKey).text); }
    if Lookup(e, StatusKey).Text? { TextNamesState(Lookup(e, StatusKey).text); }
  }

  lemma CreatedIsNoState()
    ensures !NamesState("created") && StateOfText("created").None?
  {
  }

  /** The entry reads back in the state and carries every field of the record. */
  ghost predicate Carries(e: Entry, r: Record, s: OutboxState) {
    EntryState(e) == Some(s) && forall k :: k in r.fields ==> k in e && e[k] == r.fields[k]
  }

  /** b is a but for the named keys. */
  ghost predicate SameBut(a: Entry, b: Entry, keys: set<Key>) {
    forall k :: k !in keys ==> (k in b <==> k in a) && Lookup(b, k) == Lookup(a, k)
  }

  lemma EntryCarries(r: Record, s: OutboxState)
    requires r.Valid()
    ensures Carries(EntryOf(r, s), r, s) && EntryOf(r, s).Keys == r.fields.Keys + {IdKey, KindKey, StateKey}
    ensures Lookup(EntryOf(r, s), IdKey) == Json.Text(r.id) && Lookup(EntryOf(r, s), KindKey) == Json.Text(r.kind)
  {
    hide EntryState;
    MarkedState(map[], r, s, Json.Null);
  }

  lemma UpdateCarries(e: Entry, r: Record, s: OutboxState)
    requires r.Valid()
    ensures Carries(e + UpdateOf(r, s), r, s) && SameBut(e, e + UpdateOf(r, s), r.fields.Keys + {StateKey})
  {
    hide EntryState;
    MarkedState(e, r, s, Json.Null);
  }

  /** The entry is uncertain and shows the failure; nothing else of it changed. */
  ghost predicate UncertainOf(a: Entry, b: Entry, failure: Json.Value) {
    && EntryState(b) == Some(Uncertain) && Lookup(b, UncertainFailureKey) == failure
    && Lookup(b, StatusKey) == Json.Text("uncertain") && SameBut(a, b, {StateKey, StatusKey, UncertainFailureKey})
  }

  lemma NotesCarry(e: Entry, failure: Json.Value)
    ensures UncertainOf(e, e + UncertainUpdate(failure), failure)
    ensures var noted := e + map[CleanupFailureKey := failure];
            Lookup(noted, CleanupFailureKey) == failure && SameBut(e, noted, {CleanupFailureKey})
  {
    hide EntryState;
    MarkedState(e, Record("", "", map[]), Uncertain, failure);
  }

  lemma {:induction false} PendingKeepsOrder(a: seq<Item>, b: seq<Item>, kind: Option<string>, states: set<OutboxState>,
                                             id: EntryId)
    ensures PendingOf(a + b, kind, states) == PendingOf(a, kind, states) + PendingOf(b, kind, states)
    ensures WithoutId(a + b, id) == WithoutId(a, id) + WithoutId(b, id)
    decreases |b|
  {
    hide Requested, HasId;
    if b == [] {
      assert a + b == a;
    } else {
      var n := |b| - 1;
      assert (a + b)[..|a + b| - 1] == a + b[..n];
      PendingKeepsOrder(a, b[..n], kind, states, id);
    }
  }

  // ----- The journal of a run, edited in place -----

  class JournalledRun {
    var field: Field

    constructor (f: Field)
      ensures field == f
    {
      field := f;
    }

    /** The new entry is the last one of its id, in intent state; all other items stay as they were. */
    method RecordIntent(r: Record)
      requires r.Valid()
      modifies this
      ensures field == AfterIntent(old(field), r)
      ensures |ItemsOf(field)| == |ItemsOf(old(field))| + 1 && ItemsOf(old(field)) <= ItemsOf(field)
      ensures var last := ItemsOf(field)[|ItemsOf(old(field))|];
              && HasId(last, r.id) && Lookup(last.entry, KindKey) == Json.Text(r.kind)
              && Carries(last.entry, r, IntentState) && last.entry.Keys == r.fields.Keys + {IdKey, KindKey, StateKey}
      ensures EntriesOf(field, r.id) == EntriesOf(old(field), r.id) + ItemsOf(field)[|ItemsOf(old(field))|..]
      ensures forall id :: id != r.id ==> EntriesOf(field, id) == EntriesOf(old(field), id)
    {
      hide EntryOf, Carries, Carrying;
      RecordedIdentity(r, IntentState);
      EntryCarries(r, IntentState);
      forall id { IntentView(field, r, Some(Json.Text(id))); }
      var journal := ItemsOf(field);
      field := Items(journal + [Dict(EntryOf(r, IntentState))]);
    }

    /** A record for another id raises (ok is false), after a field that is no list was replaced. Otherwise the first
        entry of the id takes the state, and nothing else changes; without one an entry is appended or not, as asked. */
    method Mark(id: EntryId, r: Record, s: OutboxState, missing: MissingIntent) returns (ok: bool)
      modifies this
      ensures ok <==> r.id == id
      ensures field == if ok then AfterMark(old(field), id, r, s, missing) else Items(ItemsOf(old(field)))
      ensures var before, after := ItemsOf(old(field)), ItemsOf(field); var first := FirstWithId(before, id);
              if !ok then after == before
              else if first.None? then
                after == if missing == RecordMissing then before + [Dict(EntryOf(r, s))] else before
              else
                && OnlyTouches(before, after, id) && after[first.value].Dict?
                && (r.Valid() ==> Carries(after[first.value].entry, r, s)
                                  && SameBut(before[first.value].entry, after[first.value].entry,
                                             r.fields.Keys + {StateKey}))
    {
      hide EntryOf, UpdateOf, OnlyTouches, Carries, SameBut;
      var journal := ItemsOf(field);
      if r.id == id {
        MarkIsIsolated(field, id, r, s, missing);
        if r.Valid() { MarkedFirst(journal, id, r, s); }
      }
      field := Items(journal);
      if r.id != id { return false; }
      var update := UpdateOf(r, s);
      var i := 0;
      while i < |journal|
        invariant 0 <= i <= |journal|
        invariant forall j :: 0 <= j < i ==> !HasId(journal[j], id)
      {
        if HasId(journal[i], id) {
          field := Items(journal[i := Dict(journal[i].entry + update)]);
          return true;
        }
        i := i + 1;
      }
      if missing == RecordMissing {
        field := Items(journal + [Dict(EntryOf(r, s))]);
      }
      return true;
    }

    /** Exactly the entries of the id go, and an empty field disappears. */
    method Finalize(id: EntryId)
      modifies this
      ensures field == AfterFinalize(old(field), id)
      ensures forall i :: i in ItemsOf(field) <==> i in ItemsOf(old(field)) && !HasId(i, id)
      ensures field == Missing <==> ItemsOf(field) == []
    {
      WithoutIdMembers(ItemsOf(field), id);
      if !field.Items? { field := Missing; return; }
      var journal := field.items;
      var remaining: seq<Item> := [];
      for i := 0 to |journal|
        invariant remaining == WithoutId(journal[..i], id)
      {
        assert journal[..i + 1][..i] == journal[..i];
        if !HasId(journal[i], id) { remaining := remaining + [journal[i]]; }
      }
      assert journal[..|journal|] == journal;
      field := if remaining != [] then Items(remaining) else Missing;
    }

    method Note(id: EntryId, update: Entry)
      modifies this
      ensures field == AfterNote(old(field), id, update)
    {
      if !field.Items? { return; }
      var journal := field.items;
      var i := 0;
      while i < |journal|
        invariant 0 <= i <= |journal|
        invariant field == old(field)
        invariant forall j :: 0 <= j < i ==> !HasId(journal[j], id)
      {
        if HasId(journal[i], id) {
          field := Items(journal[i := Dict(journal[i].entry + update)]);
          return;
        }
        i := i + 1;
      }
    }

    /** The first entry of the id turns uncertain and shows the failure; nothing else changes. */
    method MarkUncertain(id: EntryId, failure: Json.Value)
      modifies this
      ensures field == AfterUncertain(old(field), id, failure)
      ensures OnlyTouches(ItemsOf(old(field)), ItemsOf(field), id)
      ensures var before, after := ItemsOf(old(field)), ItemsOf(field); var first := FirstWithId(before, id);
              first.Some? ==> after[first.value].Dict?
                              && UncertainOf(before[first.value].entry, after[first.value].entry, failure)
    {
      hide UncertainUpdate, OnlyTouches, UncertainOf, SameBut;
      NotesAreIsolated(field, id, failure);
      var first := FirstWithId(ItemsOf(field), id);
      if first.Some? { NotesCarry(ItemsOf(field)[first.value].entry, failure); }
      Note(id, UncertainUpdate(failure));
    }

    /** The first entry of the id shows the failure of its cleanup; nothing else changes. */
    method MarkCleanupFailure(id: EntryId, failure: Json.Value)
      modifies this
      ensures field == AfterCleanupFailure(old(field), id, failure)
      ensures OnlyTouches(ItemsOf(old(field)), ItemsOf(field), id)
      ensures var before, after := ItemsOf(old(field)), ItemsOf(field); var first := FirstWithId(before, id);
              first.Some? ==>
                && after[first.value].Dict? && Lookup(after[first.value].entry, CleanupFailureKey) == failure
                && SameBut(before[first.value].entry, after[first.value].entry, {CleanupFailureKey})
    {
      hide OnlyTouches, SameBut;
      NotesAreIsolated(field, id, failure);
      var first := FirstWithId(ItemsOf(field), id);
      if first.Some? { NotesCarry(ItemsOf(field)[first.value].entry, failure); }
      Note(id, map[CleanupFailureKey := failure]);
    }

    /** Exactly the entries of the kind that read as a requested state. */
    method PendingEntries(kind: Option<string>, states: set<OutboxState>) returns (entries: seq<Entry>)
      ensures entries == PendingOf(ItemsOf(field), kind, states)
      ensures forall e :: e in entries <==> Dict(e) in ItemsOf(field) && Requested(e, kind, states)
      ensures forall e :: e in entries ==> EntryState(e).Some? && ReadsAs(e, EntryState(e))
      ensures forall e :: Dict(e) in ItemsOf(field) && e !in entries ==>
                || (kind.Some? && Lookup(e, KindKey) != Json.Text(kind.value))
                || (ReadsAs(e, EntryState(e)) && (EntryState(e).None? || EntryState(e).value !in states))
    {
      forall e ensures ReadsAs(e, EntryState(e)) { EntryReadsAs(e); }
      RequestedHasState(kind, states);
      hide Requested, ReadsAs, EntryState;
      forall e
        ensures e in PendingOf(ItemsOf(field), kind, states) <==>
                Dict(e) in ItemsOf(field) && Requested(e, kind, states)
      {
        PendingExactly(ItemsOf(field), kind, states, e);
      }
      entries := [];
      var journal := ItemsOf(field);
      for i := 0 to |journal|
        invariant entries == PendingOf(journal[..i], kind, states)
      {
        assert journal[..i + 1][..i] == journal[..i];
        if journal[i].Dict? && Requested(journal[i].entry, kind, states) {
          entries := entries + [journal[i].entry];
        }
      }
      assert journal[..|journal|] == journal;
    }
  }

  // ----- Isolation -----

  lemma RequestedHasState(kind: Option<string>, states: set<OutboxState>)
    ensures forall e :: Requested(e, kind, states) <==>
              (kind.Some? ==> Lookup(e, KindKey) == Json.Text(kind.value))
              && EntryState(e).Some? && EntryState(e).value in states
  {
  }

  /** Two items that differ, if at all, in fields other than id and kind. */
  predicate SameIdentity(a: Item, b: Item) {
    a.Dict? == b.Dict? && if a.Dict? then Lookup(a.entry, IdKey) == Lookup(b.entry, IdKey)
                                          && Lookup(a.entry, KindKey) == Lookup(b.entry, KindKey)
                          else a == b
  }

  predicate KeepsIdentity(update: Entry) {
    IdKey !in update && KindKey !in update
  }

  /** b is a with at most the first entry of the id changed, and nothing about its id or kind. */
  ghost predicate OnlyTouches(a: seq<Item>, b: seq<Item>, id: EntryId) {
    && |b| == |a|
    && (forall i :: 0 <= i < |a| ==> SameIdentity(a[i], b[i]))
    && (forall i :: 0 <= i < |a| ==> b[i] == a[i] || FirstWithId(a, id) == Some(i))
  }

  lemma UpdatedOnlyTouches(items: seq<Item>, id: EntryId, update: Entry)
    requires KeepsIdentity(update)
    ensures OnlyTouches(items, Updated(items, id, update), id)
  {
  }

  /** Marking an id applied or succeeded leaves every other entry alone and never changes an id or a kind; without an
      entry to mark it appends one or does nothing, as asked. */
  lemma MarkIsIsolated(f: Field, id: EntryId, r: Record, s: OutboxState, missing: MissingIntent)
    requires r.id == id
    ensures var before, after := ItemsOf(f), ItemsOf(AfterMark(f, id, r, s, missing));
            if FirstWithId(before, id).None? then
              after == if missing == RecordMissing then before + [Dict(EntryOf(r, s))] else before
            else OnlyTouches(before, after, id)
  {
    hide EntryOf, OnlyTouches;
    UpdateKeepsIdentity(r, s);
    UpdatedOnlyTouches(ItemsOf(f), id, UpdateOf(r, s));
  }

  lemma MarkedFirst(items: seq<Item>, id: EntryId, r: Record, s: OutboxState)
    requires r.Valid()
    ensures var first := FirstWithId(items, id);
            first.Some? ==>
              && first.value < |items| && items[first.value].Dict?
              && var e := items[first.value].entry;
              Carries(e + UpdateOf(r, s), r, s) && SameBut(e, e + UpdateOf(r, s), r.fields.Keys + {StateKey})
  {
    hide Carries, SameBut, UpdateOf;
    var first := FirstWithId(items, id);
    if first.Some? { UpdateCarries(items[first.value].entry, r, s); }
  }

  lemma UpdateKeepsIdentity(r: Record, s: OutboxState)
    ensures KeepsIdentity(UpdateOf(r, s))
  {
  }

  lemma NotesAreIsolated(f: Field, id: EntryId, failure: Json.Value)
    ensures OnlyTouches(ItemsOf(f), ItemsOf(AfterUncertain(f, id, failure)), id)
    ensures OnlyTouches(ItemsOf(f), ItemsOf(AfterCleanupFailure(f, id, failure)), id)
  {
    hide OnlyTouches;
    UpdatedOnlyTouches(ItemsOf(f), id, UncertainUpdate(failure));
    UpdatedOnlyTouches(ItemsOf(f), id, map[CleanupFailureKey := failure]);
  }

  function IdOf(i: Item): Option<Json.Value> {
    if i.Dict? then Some(Lookup(i.entry, IdKey)) else None
  }

  /** The items that carry one id value, or, for None, the ones that are no entries. */
  function Carrying(items: seq<Item>, owner: Option<Json.Value>): seq<Item> {
    if items == [] then []
    else
      var n := |items| - 1;
      Carrying(items[..n], owner) + if IdOf(items[n]) == owner then [items[n]] else []
  }

  lemma CarryingAppend(items: seq<Item>, x: Item, owner: Option<Json.Value>)
    ensures Carrying(items + [x], owner) == Carrying(items, owner) + if IdOf(x) == owner then [x] else []
  {
    assert (items + [x])[..|items|] == items;
  }

  lemma WithoutIdLast(items: seq<Item>, id: EntryId)
    requires items != []
    ensures var n := |items| - 1; var rest := WithoutId(items[..n], id);
            WithoutId(items, id) == if HasId(items[n], id) then rest else rest + [items[n]]
  {
  }

  lemma {:induction false} WithoutIdKeepsOrder(items: seq<Item>, id: EntryId, owner: Option<Json.Value>)
    ensures Carrying(WithoutId(items, id), owner) == if owner == Some(Json.Text(id)) then [] else Carrying(items, owner)
  {
    hide WithoutId, HasId, IdOf, Carrying;
    if items == [] {
      NothingWithoutId(id, owner);
    } else {
      var n := |items| - 1;
      WithoutIdKeepsOrder(items[..n], id, owner);
      WithoutIdLast(items, id);
      HasIdIs(items[n], id, map[]);
      CarryingAppend(WithoutId(items[..n], id), items[n], owner);
      CarryingAppend(items[..n], items[n], owner);
      assert items == items[..n] + [items[n]];
    }
  }

  lemma NothingWithoutId(id: EntryId, owner: Option<Json.Value>)
    ensures WithoutId([], id) == [] && Carrying([], owner) == []
  {
  }

  lemma {:induction false} WithoutIdMembers(items: seq<Item>, id: EntryId)
    ensures forall i :: i in WithoutId(items, id) <==> i in items && !HasId(i, id)
  {
    hide HasId;
    if items != [] {
      var n := |items| - 1;
      WithoutIdMembers(items[..n], id);
      assert items == items[..n] + [items[n]];
    }
  }

  /** Finalizing an id removes every entry of that id and keeps all other items, in order. */
  lemma FinalizeIsIsolated(f: Field, id: EntryId, owner: Option<Json.Value>)
    ensures var before, after := ItemsOf(f), ItemsOf(AfterFinalize(f, id));
            && (forall i :: i in after <==> i in before && !HasId(i, id))
            && Carrying(after, owner) == if owner == Some(Json.Text(id)) then [] else Carrying(before, owner)
  {
    hide HasId, Carrying;
    WithoutIdMembers(ItemsOf(f), id);
    WithoutIdKeepsOrder(ItemsOf(f), id, owner);
  }

  lemma UpdatedLast(items: seq<Item>, id: EntryId, update: Entry)
    requires items != []
    ensures var n := |items| - 1; var x := items[n];
            Updated(items, id, update) ==
            if FirstWithId(items[..n], id).Some? then Updated(items[..n], id, update) + [x]
            else if HasId(x, id) then items[..n] + [Dict(x.entry + update)] else items[..n] + [x]
  {
    hide HasId;
    var n := |items| - 1;
    assert items == items[..n] + [items[n]];
    var first := FirstWithId(items[..n], id);
    var whole := FirstWithId(items, id);
    if first.Some? {
      assert items[first.value] == items[..n][first.value];
      assert whole == first;
    } else if HasId(items[n], id) {
      assert whole.Some? && forall j :: 0 <= j < n ==> items[j] == items[..n][j];
      assert whole == Some(n);
    } else {
      assert forall j :: 0 <= j < n ==> items[j] == items[..n][j];
      assert whole.None?;
    }
  }

  /** An update of an id changes the first entry that carries the id and nothing else. */
  lemma {:induction false} UpdatedCarrying(items: seq<Item>, id: EntryId, update: Entry, owner: Option<Json.Value>)
    requires KeepsIdentity(update)
    ensures var before, after := Carrying(items, owner), Carrying(Updated(items, id, update), owner);
            if owner != Some(Json.Text(id)) || before == [] then after == before
            else before[0].Dict? && after == before[0 := Dict(before[0].entry + update)]
    ensures owner == Some(Json.Text(id)) ==> (Carrying(items, owner) == [] <==> FirstWithId(items, id).None?)
  {
    hide Updated, HasId, IdOf, Carrying, KeepsIdentity;
    if items == [] {
      EmptyUpdated(id, update, owner);
    } else {
      var n := |items| - 1;
      var x := items[n];
      UpdatedCarrying(items[..n], id, update, owner);
      UpdatedLast(items, id, update);
      assert items == items[..n] + [x];
      CarryingAppend(items[..n], x, owner);
      CarryingAppend(Updated(items[..n], id, update), x, owner);
      HasIdIs(x, id, update);
      if HasId(x, id) { CarryingAppend(items[..n], Dict(x.entry + update), owner); }
      FirstLast(items, id);
    }
  }

  lemma HasIdIs(x: Item, id: EntryId, update: Entry)
    ensures HasId(x, id) <==> IdOf(x) == Some(Json.Text(id))
    ensures HasId(x, id) ==> x.Dict?
    ensures x.Dict? && KeepsIdentity(update) ==> IdOf(Dict(x.entry + update)) == IdOf(x)
  {
  }

  lemma EmptyUpdated(id: EntryId, update: Entry, owner: Option<Json.Value>)
    ensures Updated([], id, update) == [] && Carrying([], owner) == []
  {
  }

  lemma FirstLast(items: seq<Item>, id: EntryId)
    requires items != []
    ensures FirstWithId(items, id).None? <==>
            FirstWithId(items[..|items| - 1], id).None? && !HasId(items[|items| - 1], id)
  {
    hide HasId;
    var n := |items| - 1;
    assert forall j :: 0 <= j < n ==> items[..n][j] == items[j];
  }

  /** The entries of one transaction. */
  function EntriesOf(f: Field, id: EntryId): seq<Item> {
    Carrying(ItemsOf(f), Some(Json.Text(id)))
  }

  /** What an update makes of the entries of its own id. */
  function Amended(entries: seq<Item>, update: Entry): seq<Item> {
    if entries != [] && entries[0].Dict? then entries[0 := Dict(entries[0].entry + update)] else entries
  }

  lemma IntentView(f: Field, r: Record, owner: Option<Json.Value>)
    requires r.Valid()
    ensures Carrying(ItemsOf(AfterIntent(f, r)), owner) ==
            Carrying(ItemsOf(f), owner) + if owner == Some(Json.Text(r.id)) then [Dict(EntryOf(r, IntentState))] else []
  {
    hide EntryOf;
    RecordedIdentity(r, IntentState);
    HasIdIs(Dict(EntryOf(r, IntentState)), r.id, map[]);
    CarryingAppend(ItemsOf(f), Dict(EntryOf(r, IntentState)), owner);
  }

  lemma MarkView(f: Field, r: Record, s: OutboxState, missing: MissingIntent, owner: Option<Json.Value>)
    requires r.Valid()
    ensures var before := Carrying(ItemsOf(f), owner);
            var after := Carrying(ItemsOf(AfterMark(f, r.id, r, s, missing)), owner);
            after ==
            if owner != Some(Json.Text(r.id)) then before
            else if before == [] && missing == RecordMissing then [Dict(EntryOf(r, s))]
            else Amended(before, UpdateOf(r, s))
  {
    hide EntryOf, UpdateOf, Updated, Carrying, KeepsIdentity, HasId;
    RecordedIdentity(r, s);
    UpdateKeepsIdentity(r, s);
    HasIdIs(Dict(EntryOf(r, s)), r.id, map[]);
    CarryingAppend(ItemsOf(f), Dict(EntryOf(r, s)), owner);
    UpdatedCarrying(ItemsOf(f), r.id, UpdateOf(r, s), owner);
    UpdatedCarrying(ItemsOf(f), r.id, UpdateOf(r, s), Some(Json.Text(r.id)));
  }

  lemma NoteView(f: Field, id: EntryId, update: Entry, owner: Option<Json.Value>)
    requires KeepsIdentity(update)
    ensures Carrying(ItemsOf(AfterNote(f, id, update)), owner) ==
            if owner == Some(Json.Text(id)) then Amended(Carrying(ItemsOf(f), owner), update)
            else Carrying(ItemsOf(f), owner)
  {
    hide Updated, Carrying, KeepsIdentity;
    UpdatedCarrying(ItemsOf(f), id, update, owner);
  }

  lemma NotesKeepIdentity(failure: Json.Value)
    ensures KeepsIdentity(UncertainUpdate(failure)) && KeepsIdentity(map[CleanupFailureKey := failure])
  {
  }

  // ----- What is pending -----

  lemma {:induction false} PendingExactly(items: seq<Item>, kind: Option<string>, states: set<OutboxState>, e: Entry)
    ensures e in PendingOf(items, kind, states) <==> Dict(e) in items && Requested(e, kind, states)
  {
    hide Requested;
    if items != [] {
      var n := |items| - 1;
      PendingExactly(items[..n], kind, states, e);
      assert items == items[..n] + [items[n]];
    }
  }

  lemma StateTextRoundTrip(s: OutboxState)
    ensures StateOfText(StateText(s)) == Some(s)
  {
  }

  /** A marked entry reads back in the state it was marked with, whatever its legacy status says. */
  lemma MarkedState(e: Entry, r: Record, s: OutboxState, failure: Json.Value)
    ensures EntryState(e + UpdateOf(r, s)) == Some(s)
    ensures EntryState(EntryOf(r, s)) == Some(s)
    ensures EntryState(e + UncertainUpdate(failure)) == Some(Uncertain)
    ensures EntryState(e + map[CleanupFailureKey := failure]) == EntryState(e)
  {
    StateTextRoundTrip(s);
    StateTextRoundTrip(Uncertain);
    hide StateOfText, StateText;
    assert Lookup(e + UpdateOf(r, s), StateKey) == Json.Text(StateText(s));
    assert Lookup(EntryOf(r, s), StateKey) == Json.Text(StateText(s));
    assert Lookup(e + UncertainUpdate(failure), StateKey) == Json.Text(StateText(Uncertain));
  }

  lemma RecordedIdentity(r: Record, s: OutboxState)
    requires r.Valid()
    ensures HasId(Dict(EntryOf(r, s)), r.id) && Lookup(EntryOf(r, s), KindKey) == Json.Text(r.kind)
  {
  }
}
