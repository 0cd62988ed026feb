// The resources store: the resources of the task, their keys, the resource the
// writer has selected and the "writer-resources" storage.

module ResourcesStore {
  import opened Js
  import opened ResourceData

  // ---------------------------------------------------------------------
  // Finding and filtering

  /** `rs[i]` is the first element that passes `p`. */
  predicate FirstAt(rs: seq<Resource>, p: Resource -> bool, i: int)
  {
    0 <= i < |rs| && p(rs[i]) && forall j :: 0 <= j < i ==> !p(rs[j])
  }

  /** `list.find(p)`: the first element that passes, if any. */
  function Find(rs: seq<Resource>, p: Resource -> bool): (r: Option<Resource>)
    ensures r.None? <==> forall i :: 0 <= i < |rs| ==> !p(rs[i])
    ensures r.Some? ==> exists i :: FirstAt(rs, p, i) && rs[i] == r.value
  {
    if |rs| == 0 then None
    else if p(rs[0]) then
      assert FirstAt(rs, p, 0);
      Some(rs[0])
    else
      var r := Find(rs[1..], p);
      assert r.Some? ==> exists i :: FirstAt(rs, p, i) && rs[i] == r.value by {
        if r.Some? {
          var i :| FirstAt(rs[1..], p, i) && rs[1..][i] == r.value;
          assert forall j :: 1 <= j < i + 1 ==> rs[j] == rs[1..][j - 1];
          assert FirstAt(rs, p, i + 1);
        }
      }
      r
  }

  predicate IsInstruction(r: Resource)
  {
    r.kind == Some(TYPE_INSTRUCTION)
  }

  predicate IsAnnotatable(r: Resource)
  {
    r.kind == Some(TYPE_INSTRUCTION) || r.kind == Some(TYPE_FILE)
  }

  predicate IsFileOrUrl(r: Resource)
  {
    r.kind == Some(TYPE_FILE) || r.kind == Some(TYPE_URL)
  }

  /** `getFileOrUrlResources`, in list order. */
  function FileOrUrl(rs: seq<Resource>): (r: seq<Resource>)
    ensures |r| <= |rs|
    ensures forall x :: x in r <==> x in rs && IsFileOrUrl(x)
  {
    if |rs| == 0 then []
    else (if IsFileOrUrl(rs[0]) then [rs[0]] else []) + FileOrUrl(rs[1..])
  }

  /** Selecting the file and url resources is `Array.prototype.filter`. */
  lemma {:induction false} FileOrUrlIsFilter(rs: seq<Resource>)
    ensures FileOrUrl(rs) == Filter(rs, IsFileOrUrl)
  {
    if |rs| > 0 {
      FileOrUrlIsFilter(rs[1..]);
    }
  }

  /** `element.key == activeKey`: the active key is a string, or the empty array
    * `loadFromStorage` puts in place of a missing one, which `==` compares as "". */
  predicate KeyMatches(r: Resource, active: Value)
  {
    LooseEq(Str(r.key), active)
  }

  /** Compared with a string, `==` is string equality; the empty array matches the empty key. */
  lemma KeyMatchesActive(r: Resource, s: string)
    ensures KeyMatches(r, Str(s)) <==> r.key == s
    ensures KeyMatches(r, Arr([])) <==> r.key == ""
  {
    assert ToStr(Arr([])) == "";
    assert LooseEq(Str(r.key), Arr([])) == LooseEq(Str(r.key), Str(""));
  }

  // ---------------------------------------------------------------------
  // Loading from the backend

  /** A resource as `loadFromData` keeps it: a resource that is not a link is served by the
    * backend at `resourceUrl(key)`. */
  function Placed(r: Resource, resourceUrl: string -> string): Resource
  {
    if r.kind != Some(TYPE_URL) then r.(url := resourceUrl(r.key)) else r
  }

  /** The resources built from the backend's plain objects, in data order. */
  function DataResources(data: seq<map<string, Value>>, resourceUrl: string -> string): (r: seq<Resource>)
    ensures |r| == |data| && forall i :: 0 <= i < |data| ==> r[i] == Placed(New(data[i]), resourceUrl)
  {
    seq(|data|, i requires 0 <= i < |data| => Placed(New(data[i]), resourceUrl))
  }

  /** Every resource keeps the data's properties, and its url is its own for a link and the
    * backend's otherwise. */
  lemma DataUrls(data: seq<map<string, Value>>, resourceUrl: string -> string, i: int)
    requires 0 <= i < |data|
    ensures var r := DataResources(data, resourceUrl)[i];
      r.(url := New(data[i]).url) == New(data[i]) &&
      r.url == if New(data[i]).kind == Some(TYPE_URL) then New(data[i]).url else resourceUrl(New(data[i]).key)
  {
  }

  /** The active key the loop of `loadFromData` arrives at: each resource in turn becomes
    * active while the active key is still empty and it can be shown embedded. */
  function ActiveOf(rs: seq<Resource>): string
  {
    if |rs| == 0 then ""
    else
      var active := ActiveOf(rs[..|rs| - 1]);
      var r := rs[|rs| - 1];
      if active == "" && r.IsEmbeddedSelectable() then r.key else active
  }

  /** A resource that can become active: embedded-selectable with a key that is not empty. */
  predicate Candidate(r: Resource)
  {
    r.IsEmbeddedSelectable() && r.key != ""
  }

  /** The active key is that of the first embedded-selectable resource whose key is not
    * empty, and empty if there is none. */
  lemma {:induction false} ActiveIsFirstSelectable(rs: seq<Resource>)
    ensures ActiveOf(rs) == "" <==> forall i :: 0 <= i < |rs| ==> !Candidate(rs[i])
    ensures ActiveOf(rs) != "" ==> exists i :: FirstAt(rs, Candidate, i) && rs[i].key == ActiveOf(rs)
    decreases |rs|
  {
    if |rs| > 0 {
      var n := |rs| - 1;
      var init := rs[..n];
      ActiveIsFirstSelectable(init);
      assert forall i :: 0 <= i < n ==> init[i] == rs[i];
      if ActiveOf(init) != "" {
        var i :| FirstAt(init, Candidate, i) && init[i].key == ActiveOf(init);
        assert FirstAt(rs, Candidate, i) && rs[i].key == ActiveOf(rs);
      } else if Candidate(rs[n]) {
        assert FirstAt(rs, Candidate, n);
      }
    }
  }

  /** With no embedded-selectable resource, `activeKey` stays empty. */
  lemma NoSelectableNoActive(rs: seq<Resource>)
    requires forall i :: 0 <= i < |rs| ==> !rs[i].IsEmbeddedSelectable()
    ensures ActiveOf(rs) == ""
  {
    ActiveIsFirstSelectable(rs);
  }

  function KeysOf(rs: seq<Resource>): (r: seq<string>)
    ensures |r| == |rs| && forall i :: 0 <= i < |rs| ==> r[i] == rs[i].key
  {
    seq(|rs|, i requires 0 <= i < |rs| => rs[i].key)
  }

  lemma KeysOfAppend(rs: seq<Resource>, r: Resource)
    ensures KeysOf(rs + [r]) == KeysOf(rs) + [r.key]
  {
  }

  /** The storage items written for the resources, in list order. */
  function Written(rs: seq<Resource>): map<string, Value>
  {
    if |rs| == 0 then map[] else Written(rs[..|rs| - 1])[rs[|rs| - 1].key := Image(rs[|rs| - 1])]
  }

  /** The storage `loadFromData` leaves: the items, then the index under "keys", then the
    * active key. */
  function LoadedStorage(rs: seq<Resource>, active: string): map<string, Value>
  {
    Written(rs)["keys" := Index(KeysOf(rs))]["activeKey" := Str(active)]
  }

  /** What one more resource adds to the keys, the items and the active key. */
  lemma FileStep(rs: seq<Resource>, r: Resource)
    ensures KeysOf(rs + [r]) == KeysOf(rs) + [r.key]
    ensures Written(rs + [r]) == Written(rs)[r.key := Image(r)]
    ensures ActiveOf(rs + [r]) == if ActiveOf(rs) == "" && r.IsEmbeddedSelectable() then r.key else ActiveOf(rs)
  {
    assert (rs + [r])[..|rs|] == rs;
  }

  /** The loop of `loadFromData`. */
  method FileResources(data: seq<map<string, Value>>, resourceUrl: string -> string)
    returns (rs: seq<Resource>, keys: seq<string>, written: map<string, Value>, active: string)
    ensures rs == DataResources(data, resourceUrl) && keys == KeysOf(rs)
    ensures written == Written(rs) && active == ActiveOf(rs)
  {
    ghost var all := DataResources(data, resourceUrl);
    rs, keys, written, active := [], [], map[], "";
    for i := 0 to |data|
      invariant rs == all[..i] && keys == KeysOf(rs)
      invariant written == Written(rs) && active == ActiveOf(rs)
    {
      var resource := New(data[i]);
      if resource.kind != Some(TYPE_URL) {
        resource := resource.(url := resourceUrl(resource.key));
      }
      assert all[i] == resource;
      TakeOneMore(all, i);
      FileStep(rs, resource);
      rs := rs + [resource];
      if active == "" && resource.IsEmbeddedSelectable() {
        active := resource.key;
      }
      keys := keys + [resource.GetKey()];
      written := written[resource.GetKey() := Image(resource)];
    }
    assert all[..|data|] == all;
  }

  // ---------------------------------------------------------------------
  // Loading from storage

  /** The resources `loadFromStorage` rebuilds from the entries the index names. */
  function ReadResources(storage: map<string, Value>, keys: seq<string>): seq<Resource>
  {
    if |keys| == 0 then []
    else
      var init := ReadResources(storage, keys[..|keys| - 1]);
      var k := keys[|keys| - 1];
      if k in storage && IsObjectLike(storage[k]) then init + [New(Fields(storage[k]))] else init
  }

  /** The loop of `loadFromStorage`. */
  method ReadItems(storage: map<string, Value>, keys: seq<string>) returns (rs: seq<Resource>)
    ensures rs == ReadResources(storage, keys)
  {
    rs := [];
    for i := 0 to |keys|
      invariant rs == ReadResources(storage, keys[..i])
    {
      var key := keys[i];
      assert keys[..i + 1][..i] == keys[..i];
      if key in storage && IsObjectLike(storage[key]) {
        rs := rs + [New(Fields(storage[key]))];
      }
    }
    assert keys[..|keys|] == keys;
  }

  /** `await storage.getItem('activeKey') ?? []` */
  function StoredActive(storage: map<string, Value>): Value
  {
    if "activeKey" in storage && IsSet(storage["activeKey"]) then storage["activeKey"] else Arr([])
  }

  /** The index `loadFromStorage` looks for, as written: "resourceKeys", a name nothing
    * writes; without it the keys in memory are kept. */
  function AsWrittenKeys(storage: map<string, Value>, current: seq<string>): seq<string>
  {
    if "resourceKeys" in storage then IndexKeys(storage["resourceKeys"]) else current
  }

  /** Resources JSON carries over unchanged (apart from the source, which is not persisted). */
  predicate Storable(rs: seq<Resource>)
  {
    forall i :: 0 <= i < |rs| ==> WellFormed(rs[i]) && JsonSafeData(rs[i])
  }

  /** Keys that neither repeat nor collide with the two bookkeeping items. */
  predicate DistinctKeys(rs: seq<Resource>)
  {
    NoDuplicates(KeysOf(rs)) && forall i :: 0 <= i < |rs| ==> rs[i].key !in {"keys", "activeKey", "resourceKeys"}
  }

  /** Resources as a reload gives them back: without their source. */
  function Reloaded(rs: seq<Resource>): (r: seq<Resource>)
    ensures |r| == |rs| && forall i :: 0 <= i < |rs| ==> r[i] == rs[i].(source := "")
  {
    seq(|rs|, i requires 0 <= i < |rs| => rs[i].(source := ""))
  }

  lemma {:induction false} WrittenImages(rs: seq<Resource>)
    requires NoDuplicates(KeysOf(rs))
    ensures forall x :: x in Written(rs) <==> x in KeysOf(rs)
    ensures forall i :: 0 <= i < |rs| ==> rs[i].key in Written(rs) && Written(rs)[rs[i].key] == Image(rs[i])
    decreases |rs|
  {
    if |rs| > 0 {
      var n := |rs| - 1;
      var init := rs[..n];
      assert rs == init + [rs[n]];
      KeysOfAppend(init, rs[n]);
      assert KeysOf(init) == KeysOf(rs)[..n];
      WrittenImages(init);
      forall i | 0 <= i < n ensures rs[i].key != rs[n].key {
        assert KeysOf(rs)[i] != KeysOf(rs)[n];
      }
    }
  }

  lemma {:induction false} ReadBack(storage: map<string, Value>, rs: seq<Resource>)
    requires Storable(rs)
    requires forall i :: 0 <= i < |rs| ==> rs[i].key in storage && storage[rs[i].key] == Image(rs[i])
    ensures ReadResources(storage, KeysOf(rs)) == Reloaded(rs)
    decreases |rs|
  {
    if |rs| > 0 {
      var n := |rs| - 1;
      var init := rs[..n];
      assert rs == init + [rs[n]];
      KeysOfAppend(init, rs[n]);
      assert KeysOf(rs)[..n] == KeysOf(init);
      ReadBack(storage, init);
      PersistedRoundTrip(rs[n]);
      ReloadedAppend(init, rs[n]);
    }
  }

  lemma ReloadedAppend(rs: seq<Resource>, r: Resource)
    ensures Reloaded(rs + [r]) == Reloaded(rs) + [r.(source := "")]
  {
  }

  /** As written, what `loadFromData` stores does not reload: the index is looked for under
    * "resourceKeys", so a fresh store (no keys in memory) finds no resource at all, whatever
    * the data held. */
  lemma ReloadLosesResources(data: seq<map<string, Value>>, resourceUrl: string -> string)
    requires DistinctKeys(DataResources(data, resourceUrl))
    ensures var rs := DataResources(data, resourceUrl);
      var storage := LoadedStorage(rs, ActiveOf(rs));
      AsWrittenKeys(storage, []) == [] && ReadResources(storage, AsWrittenKeys(storage, [])) == []
  {
    var rs := DataResources(data, resourceUrl);
    WrittenImages(rs);
    assert "resourceKeys" !in KeysOf(rs);
  }

  /** Reading the index under "keys", where `loadFromData` writes it, reloads the same keys,
    * the same resources (without their source) and the same active key. */
  lemma ReloadKeepsResources(data: seq<map<string, Value>>, resourceUrl: string -> string)
    requires var rs := DataResources(data, resourceUrl); Storable(rs) && DistinctKeys(rs)
    ensures var rs := DataResources(data, resourceUrl);
      var storage := LoadedStorage(rs, ActiveOf(rs));
      StoredKeys(storage) == KeysOf(rs) &&
      ReadResources(storage, StoredKeys(storage)) == Reloaded(rs) &&
      StoredActive(storage) == Str(ActiveOf(rs))
  {
    var rs := DataResources(data, resourceUrl);
    LoadedItems(rs, ActiveOf(rs));
    ReadBack(LoadedStorage(rs, ActiveOf(rs)), rs);
  }

  /** What `loadFromData` stores: the index of the keys, the active key, and each resource's
    * image under its key. */
  lemma LoadedItems(rs: seq<Resource>, active: string)
    requires DistinctKeys(rs)
    ensures var storage := LoadedStorage(rs, active);
      StoredKeys(storage) == KeysOf(rs) && StoredActive(storage) == Str(active) &&
      forall i :: 0 <= i < |rs| ==> rs[i].key in storage && storage[rs[i].key] == Image(rs[i])
  {
    IndexRoundTrip(KeysOf(rs));
    WrittenImages(rs);
  }

  /** A resource built from data is well formed, and JSON safe unless its mimetype or size is
    * not; placing it changes neither. */
  lemma DataWellFormed(data: seq<map<string, Value>>, resourceUrl: string -> string)
    ensures forall i :: 0 <= i < |data| ==> WellFormed(DataResources(data, resourceUrl)[i])
  {
    forall i | 0 <= i < |data| ensures WellFormed(DataResources(data, resourceUrl)[i]) {
      SetDataWellFormed(Default, data[i]);
    }
  }

  class ResourcesStore {
    /** The resource keys, in list order. */
    var keys: seq<string>
    var resources: seq<Resource>
    /** The key of the selected resource: '' at the start, the stored string after a reload,
      * or `[]` when the storage has none. */
    var activeKey: Value
    /** The "writer-resources" storage instance. */
    var storage: map<string, Value>

    constructor(stored: map<string, Value>)
      ensures keys == [] && resources == [] && activeKey == Str("") && storage == stored
    {
      keys, resources, activeKey := [], [], Str("");
      storage := stored;
    }

    /** There are resources exactly when the key index is not empty; without any, no title
      * is active. */
    predicate HasResources()
      reads this
      ensures HasResources() <==> KeysOf(resources) != []
      ensures !HasResources() ==> ActiveTitle() == ""
    {
      |resources| > 0
    }

    predicate HasInstruction()
      reads this
    {
      Find(resources, IsInstruction).Some?
    }

    function GetInstruction(): Option<Resource>
      reads this
    {
      Find(resources, IsInstruction)
    }

    predicate HasAnnotatableResource()
      reads this
    {
      Find(resources, IsAnnotatable).Some?
    }

    predicate HasEmbeddedFileOrUrlResources()
      reads this
    {
      Find(resources, (r: Resource) => IsFileOrUrl(r) && r.embedded).Some?
    }

    function GetFileOrUrlResources(): seq<Resource>
      reads this
    {
      FileOrUrl(resources)
    }

    /** The title of the first resource with the active key, or "". */
    function ActiveTitle(): (title: string)
      reads this
      ensures (forall i :: 0 <= i < |resources| ==> !KeyMatches(resources[i], activeKey)) ==> title == ""
    {
      var active := activeKey;
      var found := Find(resources, (r: Resource) => KeyMatches(r, active));
      if found.Some? then found.value.title else ""
    }

    /** `getResource(key)`: the first resource with that key, none when no resource has it. */
    function GetResource(key: string): (r: Option<Resource>)
      reads this
      ensures r.None? <==> forall i :: 0 <= i < |resources| ==> resources[i].key != key
      ensures r.Some? ==>
        r.value.key == key &&
        exists i :: 0 <= i < |resources| && resources[i] == r.value && forall j :: 0 <= j < i ==> resources[j].key != key
    {
      Find(resources, (r: Resource) => r.key == key)
    }

    predicate IsActive(r: Resource)
      reads this
    {
      LooseEq(activeKey, Str(r.key))
    }

    /** Only the storage is cleared; the lists and the active key stay as they are. */
    method ClearStorage()
      modifies this
      ensures storage == map[]
      ensures keys == old(keys) && resources == old(resources) && activeKey == old(activeKey)
    {
      storage := map[];
    }

    /** `loadFromStorage` as written: the index is looked for under "resourceKeys". */
    method LoadFromStorage()
      modifies this
      ensures storage == old(storage)
      ensures keys == AsWrittenKeys(storage, old(keys))
      ensures activeKey == StoredActive(storage) && resources == ReadResources(storage, keys)
    {
      if "resourceKeys" in storage {
        keys := IndexKeys(storage["resourceKeys"]);
      }
      activeKey := StoredActive(storage);
      resources := [];
      resources := ReadItems(storage, keys);
    }

    /** `loadFromStorage` reading the index under "keys", where `loadFromData` writes it. */
    method LoadFromStorageCorrected()
      modifies this
      ensures storage == old(storage)
      ensures keys == (if "keys" in storage then StoredKeys(storage) else old(keys))
      ensures activeKey == StoredActive(storage) && resources == ReadResources(storage, keys)
    {
      if "keys" in storage {
        keys := IndexKeys(storage["keys"]);
      }
      activeKey := StoredActive(storage);
      resources := [];
      resources := ReadItems(storage, keys);
    }

    /** Replace everything by the backend's resources, in data order; each resource that is
      * not a link gets the backend's url for its key, and the first one that can be shown
      * embedded becomes active. A null element throws and ends the loop, and data that is not
      * iterable throws before it; the error is caught, and the resources made so far stay,
      * with their active key, but neither the index nor the active key is written. */
    method LoadFromData(data: Value, resourceUrl: string -> string)
      modifies this
      ensures resources == DataResources(RecordData(data), resourceUrl) && keys == KeysOf(resources)
      ensures activeKey == Str(ActiveOf(resources))
      ensures storage == if IteratesFully(data) then LoadedStorage(resources, ActiveOf(resources)) else Written(resources)
    {
      storage := map[];
      keys, resources, activeKey := [], [], Str("");
      var written, active;
      resources, keys, written, active := FileResources(RecordData(data), resourceUrl);
      activeKey := Str(active);
      storage := written;
      if IteratesFully(data) {
        storage := storage["keys" := Index(keys)]["activeKey" := Str(active)];
      }
    }

    method SelectResource(r: Resource)
      modifies this
      ensures activeKey == Str(r.key) && storage == old(storage)["activeKey" := Str(r.key)]
      ensures keys == old(keys) && resources == old(resources)
      ensures IsActive(r)
    {
      activeKey := Str(r.key);
      storage := storage["activeKey" := activeKey];
      LooseEqStrings(r.key);
    }
  }

  lemma LooseEqStrings(s: string)
    ensures LooseEq(Str(s), Str(s))
  {
  }

  /** The getters check what their names say. */
  lemma Getters(rs: seq<Resource>)
    ensures Find(rs, IsInstruction).Some? <==> exists i :: 0 <= i < |rs| && rs[i].kind == Some(TYPE_INSTRUCTION)
    ensures Find(rs, IsAnnotatable).Some? <==>
      exists i :: 0 <= i < |rs| && rs[i].kind in {Some(TYPE_INSTRUCTION), Some(TYPE_FILE)}
    ensures Find(rs, (r: Resource) => IsFileOrUrl(r) && r.embedded).Some? <==>
      exists x :: x in FileOrUrl(rs) && x.embedded
  {
    var p := (r: Resource) => IsFileOrUrl(r) && r.embedded;
    if Find(rs, p).Some? {
      var x := Find(rs, p).value;
      assert x in FileOrUrl(rs);
    }
    if exists x :: x in FileOrUrl(rs) && x.embedded {
      var x :| x in FileOrUrl(rs) && x.embedded;
      var i :| 0 <= i < |rs| && rs[i] == x;
      assert p(rs[i]);
    }
  }

  /** `getInstruction` is the first instruction. */
  lemma FirstInstruction(rs: seq<Resource>)
    requires Find(rs, IsInstruction).Some?
    ensures exists i :: FirstAt(rs, IsInstruction, i) && rs[i] == Find(rs, IsInstruction).value
  {
  }
}
