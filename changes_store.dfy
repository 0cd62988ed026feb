// The outbox: per object type, the change markers that still have to be
// sent to the backend, mirrored into the "writer-changes" storage.

module ChangesStore {
  import opened Js
  import opened ChangeData

  /** A type's markers as the storage holds them: the JSON image of key => plain data. */
  function Snapshot(m: map<string, Change>): Value
  {
    JsonCopy(Obj(PlainDataOf(m)))
  }

  /** Whether `new Change(parsed[key])` throws for an entry of a type's stored value: its
    * constructor takes `data = {}`, so undefined stands for an empty object, and its `setData`
    * reads `data.action`, which throws on null. */
  predicate ThrowsOnLoad(stored: Value)
  {
    IsObjectLike(stored) && Null in Entries(stored).Values
  }

  /** The markers `loadFromStorage` rebuilds from the entries of a type's stored value at time
    * `now` that it can take; when some entry throws (`ThrowsOnLoad`), the load stops there
    * with only a part of these. */
  function Loaded(stored: Value, now: int): map<string, Change>
  {
    if IsObjectLike(stored) then
      var e := Entries(stored);
      map k | k in e && e[k] != Null :: New(Fields(e[k]), now)
    else map[]
  }

  /** The plain data of every marker, by key. */
  function PlainDataOf(m: map<string, Change>): map<string, Value>
  {
    map k | k in m :: Obj(m[k].GetData())
  }

  /** `data[key] = change.getData()` for every marker. */
  method PlainData(m: map<string, Change>) returns (data: map<string, Value>)
    ensures data == PlainDataOf(m)
    ensures Obj(data) == Obj(PlainDataOf(m)) && JsonCopy(Obj(data)) == Snapshot(m)
  {
    data := map[];
    var todo := m.Keys;
    while todo != {}
      invariant todo <= m.Keys
      invariant data.Keys == m.Keys - todo
      invariant forall k :: k in data ==> data[k] == Obj(m[k].GetData())
      decreases |todo|
    {
      var k :| k in todo;
      data := data[k := Obj(m[k].GetData())];
      todo := todo - {k};
    }
  }

  /** `state.changes[type][key] = new Change(parsed[key])` for every entry of a stored value,
    * in the (unspecified) enumeration order; an entry that throws ends the loop with the
    * markers made before it. */
  method LoadMarkers(stored: Value, now: int) returns (m: map<string, Change>, threw: bool)
    requires IsObjectLike(stored)
    ensures threw <==> ThrowsOnLoad(stored)
    ensures !threw ==> m == Loaded(stored, now)
    ensures SubMap(m, Loaded(stored, now))
  {
    var e := Entries(stored);
    ghost var target := Loaded(stored, now);
    m := map[];
    var todo := e.Keys;
    while todo != {}
      invariant todo <= e.Keys
      invariant forall k :: k in e && k !in todo ==> e[k] != Null
      invariant forall k :: k in m <==> k in e && k !in todo
      invariant forall k :: k in m ==> k in target && m[k] == target[k]
      decreases |todo|
    {
      var k :| k in todo;
      if e[k] == Null {
        assert e[k] in e.Values;
        assert SubMap(m, target);
        return m, true;
      }
      m := m[k := New(Fields(e[k]), now)];
      todo := todo - {k};
    }
    assert forall v :: v in e.Values ==> v != Null;
    threw := false;
  }

  /** `parseInt(await storage.getItem(name))`; a missing item reads as null. */
  function ReadTime(storage: map<string, Value>, name: string): Number
  {
    ParseInt(if name in storage then storage[name] else Null)
  }

  /** The markers stored for type `t`. */
  function StoredMarkers(storage: map<string, Value>, t: string, now: int): map<string, Change>
  {
    if t in storage then Loaded(storage[t], now) else map[]
  }

  /** The start state with the stored markers of `types` loaded. */
  function LoadedState(storage: map<string, Value>, types: seq<string>, now: int): map<string, map<string, Change>>
  {
    if |types| == 0 then EmptyChanges()
    else
      var t := types[|types| - 1];
      LoadedState(storage, types[..|types| - 1], now)[t := StoredMarkers(storage, t, now)]
  }

  /** Whether loading the stored markers of type `t` throws. */
  predicate TypeThrows(storage: map<string, Value>, t: string)
  {
    t in storage && ThrowsOnLoad(storage[t])
  }

  /** No load of the stored markers of `types` throws. */
  predicate NoneThrows(storage: map<string, Value>, types: seq<string>)
  {
    forall i :: 0 <= i < |types| ==> !TypeThrows(storage, types[i])
  }

  /** The start state with the allowed types' stored markers loaded in order. When the load of
    * a type throws (`failed` is its index), the types before it are loaded, that type holds
    * the markers `partial` made before the throw, and the types after it stay empty. */
  method ReadStoredState(storage: map<string, Value>, now: int)
    returns (state: map<string, map<string, Change>>, threw: bool, ghost failed: nat, ghost partial: map<string, Change>)
    ensures !threw <==> NoneThrows(storage, ALLOWED_TYPES)
    ensures !threw ==> state == LoadedState(storage, ALLOWED_TYPES, now)
    ensures threw ==>
      failed < |ALLOWED_TYPES| && NoneThrows(storage, ALLOWED_TYPES[..failed]) &&
      TypeThrows(storage, ALLOWED_TYPES[failed]) &&
      SubMap(partial, StoredMarkers(storage, ALLOWED_TYPES[failed], now)) &&
      state == LoadedState(storage, ALLOWED_TYPES[..failed], now)[ALLOWED_TYPES[failed] := partial]
  {
    state := EmptyChanges();
    failed, partial := 0, map[];
    for i := 0 to |ALLOWED_TYPES|
      invariant state == LoadedState(storage, ALLOWED_TYPES[..i], now)
      invariant NoneThrows(storage, ALLOWED_TYPES[..i])
    {
      var t := ALLOWED_TYPES[i];
      var m := map[];
      if t in storage && IsObjectLike(storage[t]) {
        var mThrew;
        m, mThrew := LoadMarkers(storage[t], now);
        if mThrew {
          NoneThrowsStops(storage, ALLOWED_TYPES, i);
          return state[t := m], true, i, m;
        }
      }
      LoadedStateStep(storage, ALLOWED_TYPES, i, now);
      state := state[t := m];
    }
    assert ALLOWED_TYPES[..|ALLOWED_TYPES|] == ALLOWED_TYPES;
    threw := false;
  }

  /** One more type whose load returns adds its stored markers. */
  lemma LoadedStateStep(storage: map<string, Value>, types: seq<string>, i: nat, now: int)
    requires i < |types| && NoneThrows(storage, types[..i]) && !TypeThrows(storage, types[i])
    ensures LoadedState(storage, types[..i + 1], now) == LoadedState(storage, types[..i], now)[types[i] := StoredMarkers(storage, types[i], now)]
    ensures NoneThrows(storage, types[..i + 1])
  {
    assert types[..i + 1][..i] == types[..i];
  }

  /** A throw at index `i` ends the run of types whose loads return. */
  lemma NoneThrowsStops(storage: map<string, Value>, types: seq<string>, i: nat)
    requires i < |types| && TypeThrows(storage, types[i])
    ensures !NoneThrows(storage, types)
  {
  }

  /** `$patch` of the type maps: loaded markers are added over the present ones. */
  function Merge(changes: map<string, map<string, Change>>, loaded: map<string, map<string, Change>>): (r: map<string, map<string, Change>>)
    ensures r.Keys == changes.Keys
  {
    map t | t in changes :: changes[t] + (if t in loaded then loaded[t] else map[])
  }

  /** Markers due in a sending that started at `maxTime` (0 selects all). */
  predicate Due(c: Change, maxTime: int)
  {
    maxTime == 0 || NumberLessEq(c.last_change, Finite(maxTime as real))
  }

  /** Sum of the marker counts of `types`. */
  function SumSizes(changes: map<string, map<string, Change>>, types: seq<string>): nat
  {
    if |types| == 0 then 0
    else
      var t := types[|types| - 1];
      SumSizes(changes, types[..|types| - 1]) + (if t in changes then |changes[t]| else 0)
  }

  /** Whether the backend's answer `oldKey: newKey` makes `setChangesSent` touch the map. */
  predicate Touches(m: map<string, Change>, oldKey: string, newKey: Value, maxTime: int)
  {
    oldKey in m &&
    (NumberLessEq(m[oldKey].last_change, Finite(maxTime as real)) || LooseEq(newKey, Null) || !LooseEq(newKey, Str(oldKey)))
  }

  /** One answer `oldKey: newKey` applied to a type's markers: a marker not newer than the
    * sending is dropped; a newer one follows a rename (file under the new key, then delete
    * the old property). */
  function Acknowledge(m: map<string, Change>, oldKey: string, newKey: Value, maxTime: int): map<string, Change>
  {
    if oldKey !in m then m
    else if NumberLessEq(m[oldKey].last_change, Finite(maxTime as real)) then m - {oldKey}
    else if LooseEq(newKey, Null) || !LooseEq(newKey, Str(oldKey)) then
      m[ToStr(newKey) := m[oldKey].(key := newKey)] - {oldKey}
    else m
  }

  /** All answers applied in enumeration order. */
  function AcknowledgeAll(m: map<string, Change>, processed: seq<(string, Value)>, maxTime: int): map<string, Change>
  {
    if |processed| == 0 then m
    else
      var last := processed[|processed| - 1];
      Acknowledge(AcknowledgeAll(m, processed[..|processed| - 1], maxTime), last.0, last.1, maxTime)
  }

  function AnyTouched(m: map<string, Change>, processed: seq<(string, Value)>, maxTime: int): bool
  {
    if |processed| == 0 then false
    else
      var last := processed[|processed| - 1];
      AnyTouched(m, processed[..|processed| - 1], maxTime) ||
      Touches(AcknowledgeAll(m, processed[..|processed| - 1], maxTime), last.0, last.1, maxTime)
  }

  function EmptyChanges(): map<string, map<string, Change>>
  {
    map[TYPE_NOTES := map[], TYPE_PREFERENCES := map[]]
  }

  class ChangesStore {
    var changes: map<string, map<string, Change>>
    var lastSave: Number
    var lastSendingSuccess: Number
    /** The "writer-changes" storage instance. */
    var storage: map<string, Value>

    /** Every allowed type, and only those, has its map of markers. */
    predicate Valid()
      reads this
    {
      changes.Keys == {TYPE_NOTES, TYPE_PREFERENCES}
    }

    /** The start state next to whatever the storage already holds. */
    constructor(stored: map<string, Value>)
      ensures Valid()
      ensures changes == EmptyChanges() && lastSave == Finite(0.0) && lastSendingSuccess == Finite(0.0)
      ensures storage == stored
    {
      changes := EmptyChanges();
      lastSave := Finite(0.0);
      lastSendingSuccess := Finite(0.0);
      storage := stored;
    }

    /** The markers of a type, none for a type that is not allowed. */
    function MarkersOf(t: string): map<string, Change>
      reads this
    {
      if t in ALLOWED_TYPES && t in changes then changes[t] else map[]
    }

    /** The number of unsent markers of all types. */
    function Count(): nat
      reads this
    {
      SumSizes(changes, ALLOWED_TYPES)
    }

    method CountChanges() returns (count: nat)
      requires Valid()
      ensures count == Count()
      ensures count == |changes[TYPE_NOTES]| + |changes[TYPE_PREFERENCES]|
    {
      count := 0;
      for i := 0 to |ALLOWED_TYPES|
        invariant count == SumSizes(changes, ALLOWED_TYPES[..i])
      {
        var t := ALLOWED_TYPES[i];
        count := count + |changes[t]|;
        assert ALLOWED_TYPES[..i + 1][..i] == ALLOWED_TYPES[..i];
      }
      assert ALLOWED_TYPES[..|ALLOWED_TYPES|] == ALLOWED_TYPES;
      assert ALLOWED_TYPES[..1] == [TYPE_NOTES];
    }

    function GetCountOfChangesFor(t: string): (n: nat)
      requires Valid()
      reads this
      ensures t !in ALLOWED_TYPES ==> n == 0
      ensures n == |MarkersOf(t)|
    {
      if t !in ALLOWED_TYPES then 0 else |changes[t]|
    }

    /** The markers of a type that are due for a sending started at `maxTime`, in the
      * (unspecified) enumeration order `keys`. */
    method GetChangesFor(t: string, maxTime: int) returns (r: seq<Change>, ghost keys: seq<string>)
      requires Valid()
      ensures |r| == |keys| && NoDuplicates(keys)
      ensures forall k :: k in keys <==> k in MarkersOf(t) && Due(MarkersOf(t)[k], maxTime)
      ensures forall i :: 0 <= i < |keys| ==> r[i] == MarkersOf(t)[keys[i]]
    {
      r, keys := [], [];
      if t !in ALLOWED_TYPES {
        return;
      }
      var m := changes[t];
      var todo := m.Keys;
      while todo != {}
        invariant todo <= m.Keys
        invariant |r| == |keys| && NoDuplicates(keys)
        invariant forall k :: k in keys <==> k in m.Keys - todo && Due(m[k], maxTime)
        invariant forall i :: 0 <= i < |keys| ==> keys[i] in m && r[i] == m[keys[i]]
        decreases |todo|
      {
        var k :| k in todo;
        if Due(m[k], maxTime) {
          r, keys := r + [m[k]], keys + [k];
        }
        todo := todo - {k};
      }
    }

    method ClearStorage()
      modifies this
      ensures Valid()
      ensures storage == map[]
      ensures changes == EmptyChanges() && lastSave == Finite(0.0) && lastSendingSuccess == Finite(0.0)
    {
      storage := map[];
      changes := EmptyChanges();
      lastSave := Finite(0.0);
      lastSendingSuccess := Finite(0.0);
    }

    /** Merge the stored markers into the state. An entry that throws ends the reading of the
      * markers (see `ReadStoredState`) and skips the reading of both timestamps; the final
      * patch with the start state puts both back to 0 in any case. */
    method LoadFromStorage(now: int) returns (ghost failed: nat, ghost partial: map<string, Change>)
      requires Valid()
      modifies this
      ensures Valid() && storage == old(storage)
      ensures NoneThrows(storage, ALLOWED_TYPES) ==>
        changes == Merge(old(changes), LoadedState(storage, ALLOWED_TYPES, now))
      ensures !NoneThrows(storage, ALLOWED_TYPES) ==>
        failed < |ALLOWED_TYPES| && NoneThrows(storage, ALLOWED_TYPES[..failed]) &&
        TypeThrows(storage, ALLOWED_TYPES[failed]) &&
        SubMap(partial, StoredMarkers(storage, ALLOWED_TYPES[failed], now)) &&
        changes == Merge(old(changes), LoadedState(storage, ALLOWED_TYPES[..failed], now)[ALLOWED_TYPES[failed] := partial])
      ensures lastSave == Finite(0.0) && lastSendingSuccess == Finite(0.0)
    {
      var state, threw;
      state, threw, failed, partial := ReadStoredState(storage, now);
      if !threw {
        ReadStoredTimes();
      }
      changes := Merge(changes, state);
      lastSave := Finite(0.0);
      lastSendingSuccess := Finite(0.0);
    }

    /** `this.lastSave = parseInt(...)` and `this.lastSendingSuccess = parseInt(...)`. */
    method ReadStoredTimes()
      modifies this
      ensures changes == old(changes) && storage == old(storage)
      ensures lastSave == ReadTime(storage, "lastSave")
      ensures lastSendingSuccess == ReadTime(storage, "lastSendingSuccess")
    {
      lastSave := ReadTime(storage, "lastSave");
      lastSendingSuccess := ReadTime(storage, "lastSendingSuccess");
    }

    /** Write a type's markers as JSON and stamp the save time. */
    method SaveChangesOfTypeToStorage(t: string, now: int)
      requires t in changes
      modifies this
      ensures changes == old(changes) && lastSendingSuccess == old(lastSendingSuccess)
      ensures lastSave == Finite(now as real)
      ensures storage == old(storage)[t := Snapshot(changes[t])]["lastSave" := Int(now)]
    {
      var data := PlainData(changes[t]);
      storage := storage[t := JsonCopy(Obj(data))];
      lastSave := Finite(now as real);
      storage := storage["lastSave" := Int(now)];
    }

    /** Whether the storage holds a non-empty map of markers of some type. The store writes a
      * type's markers as a JSON string, which is never empty, so `if (stored)` passes whenever
      * the item is there (the storage map holds the parsed value). None when a stored value is
      * the JSON `null`, where `Object.keys` throws. */
    method HasChangesInStorage() returns (r: Option<bool>)
      requires Valid()
      ensures r == StoredVerdict(storage, ALLOWED_TYPES)
    {
      for i := 0 to |ALLOWED_TYPES|
        invariant StoredVerdict(storage, ALLOWED_TYPES[..i]) == Some(false)
      {
        var t := ALLOWED_TYPES[i];
        assert ALLOWED_TYPES[..i + 1] == ALLOWED_TYPES[..i] + [t];
        StoredVerdictAppend(storage, ALLOWED_TYPES[..i], t);
        if t in storage {
          var n := KeyCount(storage[t]);
          if n.None? {
            return None;
          }
          if n.value > 0 {
            return Some(true);
          }
        }
      }
      assert ALLOWED_TYPES[..|ALLOWED_TYPES|] == ALLOWED_TYPES;
      return Some(false);
    }

    /** Record a valid marker, replacing one with the same type and key, and save its type. */
    method SetChange(c: Change, now: int)
      requires Valid()
      modifies this
      ensures Valid() && lastSendingSuccess == old(lastSendingSuccess)
      ensures !c.IsValid() ==> changes == old(changes) && storage == old(storage) && lastSave == old(lastSave)
      ensures c.IsValid() ==>
        var t := c.dataType.value;
        changes == WithChange(old(changes), c) &&
        storage == old(storage)[t := Snapshot(changes[t])]["lastSave" := Int(now)] &&
        lastSave == Finite(now as real)
    {
      if c.IsValid() {
        var t := c.dataType.value;
        changes := changes[t := changes[t][c.PropertyKey() := c]];
        SaveChangesOfTypeToStorage(t, now);
      }
    }

    /** Remove the marker with the type and key of a valid marker and save its type. */
    method UnsetChange(c: Change, now: int)
      requires Valid()
      modifies this
      ensures Valid() && lastSendingSuccess == old(lastSendingSuccess)
      ensures !c.IsValid() ==> changes == old(changes) && storage == old(storage) && lastSave == old(lastSave)
      ensures c.IsValid() ==>
        var t := c.dataType.value;
        changes == WithoutChange(old(changes), c) &&
        storage == old(storage)[t := Snapshot(changes[t])]["lastSave" := Int(now)] &&
        lastSave == Finite(now as real)
    {
      if c.IsValid() {
        var t := c.dataType.value;
        changes := changes[t := changes[t] - {c.PropertyKey()}];
        SaveChangesOfTypeToStorage(t, now);
      }
    }

    /** Clean up after a successful sending that started at `maxTime`, given the backend's
      * answer `processed` (old key => new key, null for deleted) in enumeration order. */
    method SetChangesSent(t: string, processed: seq<(string, Value)>, maxTime: int, now: int)
      requires Valid() && t in ALLOWED_TYPES
      modifies this
      ensures Valid()
      ensures changes == old(changes)[t := AcknowledgeAll(old(changes)[t], processed, maxTime)]
      ensures lastSendingSuccess == Finite(now as real)
      ensures AnyTouched(old(changes)[t], processed, maxTime) ==>
        lastSave == Finite(now as real) &&
        storage == old(storage)[t := Snapshot(changes[t])]["lastSave" := Int(now)]["lastSendingSuccess" := Int(now)]
      ensures !AnyTouched(old(changes)[t], processed, maxTime) ==>
        lastSave == old(lastSave) && storage == old(storage)["lastSendingSuccess" := Int(now)]
    {
      var m := changes[t];
      var toStore := false;
      for i := 0 to |processed|
        invariant m == AcknowledgeAll(old(changes)[t], processed[..i], maxTime)
        invariant toStore == AnyTouched(old(changes)[t], processed[..i], maxTime)
      {
        var oldKey, newKey := processed[i].0, processed[i].1;
        assert processed[..i + 1][..i] == processed[..i];
        if oldKey in m {
          var change := m[oldKey];
          if NumberLessEq(change.last_change, Finite(maxTime as real)) {
            m := m - {oldKey};
            toStore := true;
          } else if LooseEq(newKey, Null) || !LooseEq(newKey, Str(oldKey)) {
            m := m[ToStr(newKey) := change.(key := newKey)];
            m := m - {oldKey};
            toStore := true;
          }
        }
      }
      assert processed[..|processed|] == processed;
      changes := changes[t := m];
      if toStore {
        SaveChangesOfTypeToStorage(t, now);
      }
      lastSendingSuccess := Finite(now as real);
      storage := storage["lastSendingSuccess" := Int(now)];
    }
  }

  /** The markers after recording valid marker `c`. */
  function WithChange(changes: map<string, map<string, Change>>, c: Change): map<string, map<string, Change>>
    requires c.IsValid() && c.dataType.value in changes
  {
    changes[c.dataType.value := changes[c.dataType.value][c.PropertyKey() := c]]
  }

  function WithoutChange(changes: map<string, map<string, Change>>, c: Change): map<string, map<string, Change>>
    requires c.IsValid() && c.dataType.value in changes
  {
    changes[c.dataType.value := changes[c.dataType.value] - {c.PropertyKey()}]
  }

  /** The answer of `hasChangesInStorage` after looking at `types` in order. */
  function StoredVerdict(storage: map<string, Value>, types: seq<string>): Option<bool>
  {
    if |types| == 0 then Some(false)
    else
      var before := StoredVerdict(storage, types[..|types| - 1]);
      var t := types[|types| - 1];
      if before != Some(false) then before
      else if t in storage then
        (match KeyCount(storage[t])
         case None => None
         case Some(n) => Some(n > 0))
      else Some(false)
  }

  lemma StoredVerdictAppend(storage: map<string, Value>, types: seq<string>, t: string)
    ensures StoredVerdict(storage, types + [t]) ==
      if StoredVerdict(storage, types) != Some(false) then StoredVerdict(storage, types)
      else if t in storage then
        (match KeyCount(storage[t])
         case None => None
         case Some(n) => Some(n > 0))
      else Some(false)
  {
    assert (types + [t])[..|types|] == types;
  }

  // ---------------------------------------------------------------------
  // Properties

  /** A stored JSON `null` for the notes makes `hasChangesInStorage` throw whatever else is
    * stored; a non-empty map of notes markers makes it answer true. */
  lemma StoredNotesVerdict(storage: map<string, Value>)
    requires TYPE_NOTES in storage
    ensures storage[TYPE_NOTES] == Null ==> StoredVerdict(storage, ALLOWED_TYPES) == None
    ensures storage[TYPE_NOTES].Obj? && |storage[TYPE_NOTES].fields| > 0 ==> StoredVerdict(storage, ALLOWED_TYPES) == Some(true)
  {
    assert ALLOWED_TYPES[..|ALLOWED_TYPES| - 1] == [TYPE_NOTES];
    StoredVerdictAppend(storage, [], TYPE_NOTES);
    assert [] + [TYPE_NOTES] == [TYPE_NOTES];
    var first := StoredVerdict(storage, [TYPE_NOTES]);
    assert first != Some(false) ==> StoredVerdict(storage, ALLOWED_TYPES) == first;
  }

  /** A marker not newer than the sending is dropped whatever the new key; nothing else changes. */
  lemma AcknowledgeDropsSent(m: map<string, Change>, oldKey: string, newKey: Value, maxTime: int)
    requires oldKey in m && NumberLessEq(m[oldKey].last_change, Finite(maxTime as real))
    ensures Acknowledge(m, oldKey, newKey, maxTime) == m - {oldKey}
  {
  }

  /** A newer marker moves to the new key with its key updated, unless the new key names the
    * old property itself ("null" answered with null), in which case it is lost. */
  lemma AcknowledgeMovesNewer(m: map<string, Change>, oldKey: string, newKey: Value, maxTime: int)
    requires oldKey in m && !NumberLessEq(m[oldKey].last_change, Finite(maxTime as real))
    requires LooseEq(newKey, Null) || !LooseEq(newKey, Str(oldKey))
    ensures oldKey !in Acknowledge(m, oldKey, newKey, maxTime)
    ensures ToStr(newKey) != oldKey ==>
      var r := Acknowledge(m, oldKey, newKey, maxTime);
      ToStr(newKey) in r && r[ToStr(newKey)] == m[oldKey].(key := newKey)
  {
  }

  lemma MapRemoveSize<K, V>(m: map<K, V>, k: K)
    ensures |m - {k}| == if k in m then |m| - 1 else |m|
  {
    assert (m - {k}).Keys == m.Keys - {k};
  }

  lemma MapUpdateSize<K, V>(m: map<K, V>, k: K, v: V)
    ensures |m[k := v]| == if k in m then |m| else |m| + 1
  {
    assert m[k := v].Keys == m.Keys + {k};
  }

  /** Acknowledgements never add markers. */
  lemma {:induction false} AcknowledgeAllShrinks(m: map<string, Change>, processed: seq<(string, Value)>, maxTime: int)
    ensures |AcknowledgeAll(m, processed, maxTime)| <= |m|
    decreases |processed|
  {
    if |processed| > 0 {
      var before := AcknowledgeAll(m, processed[..|processed| - 1], maxTime);
      AcknowledgeAllShrinks(m, processed[..|processed| - 1], maxTime);
      var (o, n) := processed[|processed| - 1];
      if o in before {
        MapRemoveSize(before, o);
        var moved := before[ToStr(n) := before[o].(key := n)];
        MapUpdateSize(before, ToStr(n), before[o].(key := n));
        MapRemoveSize(moved, o);
      }
    }
  }

  /** The new property names an answer can file a marker under. */
  function Targets(processed: seq<(string, Value)>): set<string>
  {
    set i | 0 <= i < |processed| :: ToStr(processed[i].1)
  }

  function OldKeys(processed: seq<(string, Value)>): set<string>
  {
    set i | 0 <= i < |processed| :: processed[i].0
  }

  /** A marker the answer does not mention, neither as old nor as new key, is left alone. */
  lemma {:induction false} AcknowledgeAllLeavesOthers(m: map<string, Change>, processed: seq<(string, Value)>, maxTime: int, k: string)
    requires k !in OldKeys(processed) && k !in Targets(processed)
    ensures var r := AcknowledgeAll(m, processed, maxTime);
      (k in r <==> k in m) && (k in m ==> r[k] == m[k])
    decreases |processed|
  {
    if |processed| > 0 {
      var init := processed[..|processed| - 1];
      assert OldKeys(init) <= OldKeys(processed) by {
        forall x | x in OldKeys(init) ensures x in OldKeys(processed) {
          var i :| 0 <= i < |init| && init[i].0 == x;
          assert processed[i] == init[i];
        }
      }
      assert Targets(init) <= Targets(processed) by {
        forall x | x in Targets(init) ensures x in Targets(processed) {
          var i :| 0 <= i < |init| && ToStr(init[i].1) == x;
          assert processed[i] == init[i];
        }
      }
      AcknowledgeAllLeavesOthers(m, init, maxTime, k);
      var last := processed[|processed| - 1];
      assert last.0 in OldKeys(processed) && ToStr(last.1) in Targets(processed);
    }
  }

  /** The markers a sending at `maxTime` covered, among the old keys of the answer. */
  function Unacknowledged(m: map<string, Change>, keys: set<string>, maxTime: int): map<string, Change>
  {
    map k | k in m && !(k in keys && NumberLessEq(m[k].last_change, Finite(maxTime as real))) :: m[k]
  }

  /** When the backend confirms every key unchanged, exactly the acknowledged markers that
    * are not newer than the sending disappear; a marker recorded after the sending started
    * survives, and so does every marker the answer does not mention. */
  lemma {:induction false} IdentityAnswerRemovesExactlySent(m: map<string, Change>, processed: seq<(string, Value)>, maxTime: int)
    requires forall i :: 0 <= i < |processed| ==> processed[i].1 == Str(processed[i].0)
    ensures AcknowledgeAll(m, processed, maxTime) == Unacknowledged(m, OldKeys(processed), maxTime)
    decreases |processed|
  {
    if |processed| == 0 {
      assert Unacknowledged(m, {}, maxTime) == m;
    } else {
      var init := processed[..|processed| - 1];
      var (o, n) := processed[|processed| - 1];
      IdentityAnswerRemovesExactlySent(m, init, maxTime);
      assert OldKeys(processed) == OldKeys(init) + {o} by {
        forall x | x in OldKeys(processed) ensures x in OldKeys(init) + {o} {
          var i :| 0 <= i < |processed| && processed[i].0 == x;
          if i < |init| { assert init[i] == processed[i]; }
        }
        forall x | x in OldKeys(init) ensures x in OldKeys(processed) {
          var i :| 0 <= i < |init| && init[i].0 == x;
          assert processed[i] == init[i];
        }
      }
      assert !LooseEq(n, Null) && LooseEq(n, Str(o));
    }
  }

  /** Markers written by `saveChangesOfTypeToStorage` read back unchanged by `loadFromStorage`,
    * as long as each has a string key and a real, non-zero time. */
  lemma ReloadRestoresMarkers(m: map<string, Change>, now: int)
    requires forall k :: k in m ==> WellFormed(m[k]) && m[k].last_change.Finite? && m[k].last_change.r != 0.0
    ensures Loaded(Snapshot(m), now) == m
  {
    var data := PlainDataOf(m);
    forall k | k in data ensures JsonSafe(data[k]) {
      JsonCopyOfSafe(Obj(m[k].GetData()));
    }
    JsonCopyOfSafe(Obj(data));
    forall k | k in m ensures New(Fields(data[k]), now) == m[k] {
      RoundTrip(m[k], now);
    }
  }

  /** Each entry of a saved type is an object, so reading it back never throws. */
  lemma SnapshotTakesEveryEntry(m: map<string, Change>)
    ensures !ThrowsOnLoad(Snapshot(m))
  {
    var d := PlainDataOf(m);
    var e := Entries(Snapshot(m));
    assert e == map k | k in d && !d[k].Undefined? :: JsonCopy(d[k]);
    forall v | v in e.Values
      ensures v != Null
    {
      var k :| k in e && e[k] == v;
      assert d[k].Obj?;
    }
  }

  /** Recording a marker adds one to the count unless one with the same type and key is
    * there already, which it replaces. */
  lemma {:induction false} WithChangeCount(changes: map<string, map<string, Change>>, c: Change, types: seq<string>)
    requires c.IsValid() && c.dataType.value in changes
    requires NoDuplicates(types)
    ensures SumSizes(WithChange(changes, c), types) ==
      SumSizes(changes, types) +
      (if c.dataType.value in types && c.PropertyKey() !in changes[c.dataType.value] then 1 else 0)
    decreases |types|
  {
    if |types| > 0 {
      var init := types[..|types| - 1];
      var t := types[|types| - 1];
      assert NoDuplicates(init);
      WithChangeCount(changes, c, init);
      MapUpdateSize(changes[c.dataType.value], c.PropertyKey(), c);
      assert c.dataType.value in types <==> c.dataType.value in init || c.dataType.value == t;
      if c.dataType.value == t {
        assert t !in init;
      }
    }
  }

  /** Recording two markers with the same type and key keeps only the second. */
  lemma WithChangeCoalesces(changes: map<string, map<string, Change>>, c1: Change, c2: Change)
    requires c1.IsValid() && c2.IsValid() && c1.dataType.value in changes
    requires c1.dataType == c2.dataType && c1.PropertyKey() == c2.PropertyKey()
    ensures WithChange(WithChange(changes, c1), c2) == WithChange(changes, c2)
  {
    var t, k := c1.dataType.value, c1.PropertyKey();
    assert changes[t][k := c1][k := c2] == changes[t][k := c2];
  }
}
