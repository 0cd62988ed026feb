// The preferences store: the writer's two zoom levels, kept in the
// "writer-preferences" storage and announced to the outbox under a single
// fixed key.

module PreferencesStore {
  import opened Js
  import CD = ChangeData
  import CS = ChangesStore
  import opened ApiTime

  const INSTRUCTIONS_ZOOM := "instructions_zoom"
  const EDITOR_ZOOM := "editor_zoom"

  /** The storage item and the marker key of the preferences. */
  const PREFERENCES_KEY := "preferences"

  /** The initial state: instructions at 0.25, editors at 1. */
  const DEFAULTS: map<string, Value> := map[INSTRUCTIONS_ZOOM := Num(Finite(0.25)), EDITOR_ZOOM := Int(1)]

  /** `allData`: the two zoom levels of a state. */
  function AllDataOf(state: map<string, Value>): (r: map<string, Value>)
    ensures r.Keys == {INSTRUCTIONS_ZOOM, EDITOR_ZOOM}
    ensures forall k :: k in r ==> r[k] == Get(state, k)
  {
    map[INSTRUCTIONS_ZOOM := Get(state, INSTRUCTIONS_ZOOM), EDITOR_ZOOM := Get(state, EDITOR_ZOOM)]
  }

  /** `$patch(data)` with a plain object: each own property of the patch is assigned to the
    * state, except that a plain object patched onto a plain object is merged into it. */
  function Patch(target: map<string, Value>, patch: map<string, Value>): (r: map<string, Value>)
    decreases Obj(patch)
  {
    map k | k in target.Keys + patch.Keys ::
      if k !in patch then target[k]
      else if k in target && target[k].Obj? && patch[k].Obj? then Obj(Patch(target[k].fields, patch[k].fields))
      else patch[k]
  }

  /** A patch adds its properties and keeps every other property of the target. */
  lemma PatchKeys(target: map<string, Value>, patch: map<string, Value>)
    ensures Patch(target, patch).Keys == target.Keys + patch.Keys
    ensures forall k :: k in target && k !in patch ==> Patch(target, patch)[k] == target[k]
    ensures forall k :: k in patch && !(k in target && target[k].Obj? && patch[k].Obj?) ==> Patch(target, patch)[k] == patch[k]
  {
  }

  /** Patching a state with a part of itself changes nothing. */
  lemma {:induction false} PatchWithOwnPart(target: map<string, Value>, patch: map<string, Value>)
    requires forall k :: k in patch ==> k in target && target[k] == patch[k]
    ensures Patch(target, patch) == target
    decreases Obj(patch)
  {
    var r := Patch(target, patch);
    forall k | k in patch && target[k].Obj?
      ensures r[k] == target[k]
    {
      var f := target[k].fields;
      PatchWithOwnPart(f, f);
    }
    assert r.Keys == target.Keys;
  }

  /** Applying the same patch twice is the same as applying it once. */
  lemma {:induction false} PatchIdempotent(target: map<string, Value>, patch: map<string, Value>)
    ensures Patch(Patch(target, patch), patch) == Patch(target, patch)
    decreases Obj(patch)
  {
    var once := Patch(target, patch);
    var twice := Patch(once, patch);
    forall k | k in patch
      ensures twice[k] == once[k]
    {
      if k in target && target[k].Obj? && patch[k].Obj? {
        PatchIdempotent(target[k].fields, patch[k].fields);
      } else if patch[k].Obj? {
        PatchWithOwnPart(patch[k].fields, patch[k].fields);
      }
    }
    assert twice.Keys == once.Keys;
  }

  /** The marker `update` passes to the changes store. */
  function PreferencesMarkerData(): map<string, Value>
  {
    map["type" := Str(CD.TYPE_PREFERENCES), "action" := Str(CD.ACTION_SAVE), "key" := Str(PREFERENCES_KEY)]
  }

  /** The marker recorded by `update`: a save of the fixed key at the time of the call. */
  function PreferencesMarker(now: int): CD.Change
  {
    CD.Change(Some(CD.ACTION_SAVE), Some(CD.TYPE_PREFERENCES), Str(PREFERENCES_KEY), Finite(now as real))
  }

  /** The data of `update` builds that marker, which is valid and filed under the fixed key. */
  lemma PreferencesMarkerShape(now: int)
    ensures CD.New(PreferencesMarkerData(), now) == PreferencesMarker(now)
    ensures PreferencesMarker(now).IsValid() && PreferencesMarker(now).PropertyKey() == PREFERENCES_KEY
  {
    CD.NewIsValid(PreferencesMarkerData(), now);
  }

  /** Since every preferences marker goes under the fixed key, recording one more leaves
    * exactly one preferences marker, the newest. */
  lemma AtMostOneMarker(changes: map<string, map<string, CD.Change>>, now: int)
    requires CD.TYPE_PREFERENCES in changes && changes[CD.TYPE_PREFERENCES].Keys <= {PREFERENCES_KEY}
    ensures PreferencesMarker(now).IsValid()
    ensures var after := CS.WithChange(changes, PreferencesMarker(now))[CD.TYPE_PREFERENCES];
      after.Keys == {PREFERENCES_KEY} && after[PREFERENCES_KEY] == PreferencesMarker(now)
  {
    PreferencesMarkerShape(now);
  }

  /** The storage item of a state: `setItem` keeps the `allData` object itself, as a
    * structured clone. */
  function StoredItem(state: map<string, Value>): Value
  {
    Persisted(Obj(AllDataOf(state)))
  }

  /** The stored item read into any state brings back the saved zoom levels, and read into
    * the state it came from changes nothing. */
  lemma StoredItemRoundTrip(saved: map<string, Value>, target: map<string, Value>)
    requires forall k :: k in AllDataOf(saved) && k in target ==> !target[k].Obj?
    ensures Truthy(StoredItem(saved))
    ensures AllDataOf(Patch(target, Entries(StoredItem(saved)))) == AllDataOf(saved)
    ensures INSTRUCTIONS_ZOOM in saved && EDITOR_ZOOM in saved ==> Patch(saved, Entries(StoredItem(saved))) == saved
  {
    var data := AllDataOf(saved);
    assert Entries(StoredItem(saved)) == data;
    PatchKeys(target, data);
    if INSTRUCTIONS_ZOOM in saved && EDITOR_ZOOM in saved {
      PatchWithOwnPart(saved, data);
    }
  }

  class PreferencesStore {
    var state: map<string, Value>
    /** Set once the preferences were loaded from the backend. */
    var sent: bool
    /** The "writer-preferences" storage: its one item "preferences" as JSON reads it back. */
    var storage: map<string, Value>

    /** The store holds both zoom levels. */
    predicate Valid()
      reads this
    {
      INSTRUCTIONS_ZOOM in state && EDITOR_ZOOM in state
    }

    constructor(storage: map<string, Value>)
      ensures Valid()
      ensures state == DEFAULTS && !sent && this.storage == storage
    {
      state, sent := DEFAULTS, false;
      this.storage := storage;
    }

    function AllData(): (r: map<string, Value>)
      reads this
      ensures r.Keys == {INSTRUCTIONS_ZOOM, EDITOR_ZOOM}
    {
      AllDataOf(state)
    }

    /** Empty the storage and reset the state to the defaults. */
    method ClearStorage()
      modifies this
      ensures Valid()
      ensures storage == map[] && state == DEFAULTS && sent == old(sent)
    {
      storage := map[];
      state := DEFAULTS;
    }

    /** Patch the state with the stored item, if there is a truthy one. */
    method LoadFromStorage()
      requires Valid()
      modifies this
      ensures Valid()
      ensures storage == old(storage) && sent == old(sent)
      ensures PREFERENCES_KEY in storage && Truthy(storage[PREFERENCES_KEY]) ==>
        state == Patch(old(state), Entries(storage[PREFERENCES_KEY]))
      ensures !(PREFERENCES_KEY in storage && Truthy(storage[PREFERENCES_KEY])) ==> state == old(state)
    {
      if PREFERENCES_KEY in storage && Truthy(storage[PREFERENCES_KEY]) {
        PatchKeys(state, Entries(storage[PREFERENCES_KEY]));
        state := Patch(state, Entries(storage[PREFERENCES_KEY]));
      }
    }

    /** Write `allData` to the storage item. */
    method SaveToStorage()
      modifies this
      ensures state == old(state) && sent == old(sent)
      ensures storage == old(storage)[PREFERENCES_KEY := StoredItem(state)]
    {
      storage := storage[PREFERENCES_KEY := StoredItem(state)];
    }

    /** Patch the state with the backend's data, mark it as sent and save it. */
    method LoadFromData(data: Value)
      requires Valid()
      modifies this
      ensures Valid()
      ensures state == Patch(old(state), Entries(data)) && sent
      ensures storage == old(storage)[PREFERENCES_KEY := StoredItem(state)]
    {
      PatchKeys(state, Entries(data));
      state := Patch(state, Entries(data));
      sent := true;
      SaveToStorage();
    }

    /** Save the preferences and record one save marker under the fixed key. */
    method Update(now: int, changes: CS.ChangesStore)
      requires changes.Valid()
      modifies this, changes
      ensures state == old(state) && sent == old(sent)
      ensures storage == old(storage)[PREFERENCES_KEY := StoredItem(state)]
      ensures changes.Valid() && changes.lastSendingSuccess == old(changes.lastSendingSuccess)
      ensures changes.changes == CS.WithChange(old(changes.changes), PreferencesMarker(now))
      ensures changes.storage == old(changes.storage)[CD.TYPE_PREFERENCES := CS.Snapshot(changes.changes[CD.TYPE_PREFERENCES])]["lastSave" := Int(now)]
      ensures changes.lastSave == Finite(now as real)
    {
      var item := StoredItem(state);
      storage := storage[PREFERENCES_KEY := item];
      PreferencesMarkerShape(now);
      changes.SetChange(CD.New(PreferencesMarkerData(), now), now);
    }

    /** The data to send for each due preferences marker: every entry carries the current
      * `allData` as its payload. */
    method GetChangedData(sendingTime: int, changes: CS.ChangesStore, timeOffset: Number) returns (r: seq<map<string, Value>>, ghost markerKeys: seq<string>)
      requires changes.Valid()
      ensures |r| == |markerKeys| && NoDuplicates(markerKeys)
      ensures forall k :: k in markerKeys <==>
        k in changes.MarkersOf(CD.TYPE_PREFERENCES) && CS.Due(changes.MarkersOf(CD.TYPE_PREFERENCES)[k], sendingTime)
      ensures forall i :: 0 <= i < |r| ==>
        r[i] == ChangeDataToSend(changes.MarkersOf(CD.TYPE_PREFERENCES)[markerKeys[i]], Obj(AllData()), timeOffset)
      ensures forall i :: 0 <= i < |r| ==> "payload" in r[i] && r[i]["payload"] == Obj(AllData())
    {
      var markers;
      markers, markerKeys := changes.GetChangesFor(CD.TYPE_PREFERENCES, sendingTime);
      var payload := Obj(AllData());
      r := [];
      for i := 0 to |markers|
        invariant |r| == i
        invariant forall j :: 0 <= j < i ==> r[j] == ChangeDataToSend(markers[j], payload, timeOffset)
      {
        r := r + [ChangeDataToSend(markers[i], payload, timeOffset)];
      }
    }
  }
}
