// The annotations store: the writer's annotations of all resources, the list
// of their keys and the "writer-annotations" storage.

module AnnotationsStore {
  import opened Js
  import opened AnnotationData

  // ---------------------------------------------------------------------
  // Selecting by resource

  /** `annotations.filter(a => a.resource_key === k)` */
  function OfResource(annos: seq<Annotation>, k: string): seq<Annotation>
  {
    if |annos| == 0 then []
    else (if annos[0].resource_key == k then [annos[0]] else []) + OfResource(annos[1..], k)
  }

  /** `annotations.filter(a => a.resource_key !== k)` */
  function OtherResources(annos: seq<Annotation>, k: string): seq<Annotation>
  {
    if |annos| == 0 then []
    else (if annos[0].resource_key != k then [annos[0]] else []) + OtherResources(annos[1..], k)
  }

  /** The annotations selected for a resource are exactly those of that resource, and the
    * ones kept beside them exactly those of the other resources. */
  lemma {:induction false} SelectMembers(annos: seq<Annotation>, k: string)
    ensures forall a :: a in OfResource(annos, k) <==> a in annos && a.resource_key == k
    ensures forall a :: a in OtherResources(annos, k) <==> a in annos && a.resource_key != k
  {
    if |annos| > 0 {
      SelectMembers(annos[1..], k);
      assert annos == [annos[0]] + annos[1..];
    }
  }

  /** Selecting by resource is `Array.prototype.filter`, so it keeps the order of the list. */
  lemma {:induction false} OfResourceIsFilter(annos: seq<Annotation>, k: string)
    ensures OfResource(annos, k) == Filter(annos, (a: Annotation) => a.resource_key == k)
    ensures OtherResources(annos, k) == Filter(annos, (a: Annotation) => a.resource_key != k)
  {
    if |annos| > 0 {
      OfResourceIsFilter(annos[1..], k);
    }
  }

  /** The annotations of a resource and those of the others split the list. */
  lemma {:induction false} ResourcesPartition(annos: seq<Annotation>, k: string)
    ensures |OfResource(annos, k)| + |OtherResources(annos, k)| == |annos|
    ensures multiset(OfResource(annos, k)) + multiset(OtherResources(annos, k)) == multiset(annos)
  {
    if |annos| > 0 {
      ResourcesPartition(annos[1..], k);
      assert annos == [annos[0]] + annos[1..];
    }
  }

  lemma {:induction false} SelectAppend(a: seq<Annotation>, b: seq<Annotation>, k: string)
    ensures OfResource(a + b, k) == OfResource(a, k) + OfResource(b, k)
    ensures OtherResources(a + b, k) == OtherResources(a, k) + OtherResources(b, k)
  {
    OfResourceAppend(a, b, k);
    OtherResourcesAppend(a, b, k);
  }

  lemma {:induction false} OfResourceAppend(a: seq<Annotation>, b: seq<Annotation>, k: string)
    ensures OfResource(a + b, k) == OfResource(a, k) + OfResource(b, k)
  {
    if |a| == 0 {
      assert a + b == b;
    } else {
      var head := if a[0].resource_key == k then [a[0]] else [];
      assert (a + b)[0] == a[0] && (a + b)[1..] == a[1..] + b;
      assert OfResource(a + b, k) == head + OfResource(a[1..] + b, k);
      OfResourceAppend(a[1..], b, k);
      assert OfResource(a, k) == head + OfResource(a[1..], k);
    }
  }

  lemma {:induction false} OtherResourcesAppend(a: seq<Annotation>, b: seq<Annotation>, k: string)
    ensures OtherResources(a + b, k) == OtherResources(a, k) + OtherResources(b, k)
  {
    if |a| == 0 {
      assert a + b == b;
    } else {
      var head := if a[0].resource_key != k then [a[0]] else [];
      assert (a + b)[0] == a[0] && (a + b)[1..] == a[1..] + b;
      assert OtherResources(a + b, k) == head + OtherResources(a[1..] + b, k);
      OtherResourcesAppend(a[1..], b, k);
      assert OtherResources(a, k) == head + OtherResources(a[1..], k);
    }
  }

  /** A list of one resource's annotations selects as itself for that resource and as
    * nothing for the others. */
  lemma {:induction false} SelectOneResource(annos: seq<Annotation>, k: string)
    requires forall i :: 0 <= i < |annos| ==> annos[i].resource_key == k
    ensures OfResource(annos, k) == annos && OtherResources(annos, k) == []
  {
    if |annos| > 0 {
      SelectOneResource(annos[1..], k);
    }
  }

  /** The list `saveAnnotationsForResource(k, given)` leaves. */
  function Replaced(annos: seq<Annotation>, k: string, given: seq<Annotation>): seq<Annotation>
  {
    given + OtherResources(annos, k)
  }

  /** After the save, resource `k` has exactly the given annotations of `k`, and every other
    * resource keeps its annotations in their order, with any annotation of another resource
    * in `given` in front of them. */
  lemma SavedSelection(annos: seq<Annotation>, k: string, given: seq<Annotation>, other: string)
    requires other != k
    ensures OfResource(Replaced(annos, k, given), k) == OfResource(given, k)
    ensures OfResource(Replaced(annos, k, given), other) == OfResource(given, other) + OfResource(annos, other)
  {
    var others := OtherResources(annos, k);
    SelectAppend(given, others, k);
    SelectAppend(given, others, other);
    NoneOfResource(annos, k);
    OthersOfOther(annos, k, other);
  }

  lemma {:induction false} NoneOfResource(annos: seq<Annotation>, k: string)
    ensures OfResource(OtherResources(annos, k), k) == []
  {
    if |annos| > 0 {
      NoneOfResource(annos[1..], k);
      SelectAppend(if annos[0].resource_key != k then [annos[0]] else [], OtherResources(annos[1..], k), k);
    }
  }

  lemma {:induction false} OthersOfOther(annos: seq<Annotation>, k: string, other: string)
    requires other != k
    ensures OfResource(OtherResources(annos, k), other) == OfResource(annos, other)
  {
    if |annos| > 0 {
      OthersOfOther(annos[1..], k, other);
      SelectAppend(if annos[0].resource_key != k then [annos[0]] else [], OtherResources(annos[1..], k), other);
    }
  }

  /** The intended use: saving a resource's own annotations makes them what the getter returns
    * for it, and leaves the rest of the list as it was. */
  lemma SavedOwnAnnotations(annos: seq<Annotation>, k: string, given: seq<Annotation>)
    requires forall i :: 0 <= i < |given| ==> given[i].resource_key == k
    ensures OfResource(Replaced(annos, k, given), k) == given
    ensures OtherResources(Replaced(annos, k, given), k) == OtherResources(annos, k)
  {
    var others := OtherResources(annos, k);
    SelectAppend(given, others, k);
    SelectOneResource(given, k);
    NoneOfResource(annos, k);
    OtherOfOthers(annos, k);
  }

  lemma {:induction false} OtherOfOthers(annos: seq<Annotation>, k: string)
    ensures OtherResources(OtherResources(annos, k), k) == OtherResources(annos, k)
  {
    if |annos| > 0 {
      OtherOfOthers(annos[1..], k);
      SelectAppend(if annos[0].resource_key != k then [annos[0]] else [], OtherResources(annos[1..], k), k);
    }
  }

  // ---------------------------------------------------------------------
  // Keys and storage items

  /** `annotations.map(a => a.getKey())` */
  function KeysOf(annos: seq<Annotation>): (r: seq<string>)
    ensures |r| == |annos| && forall i :: 0 <= i < |annos| ==> r[i] == annos[i].GetKey()
  {
    seq(|annos|, i requires 0 <= i < |annos| => annos[i].GetKey())
  }

  /** The keys of the list, as a set. */
  function KeySet(annos: seq<Annotation>): set<string>
  {
    set x | x in KeysOf(annos)
  }

  lemma KeysOfAppend(annos: seq<Annotation>, a: Annotation)
    ensures KeysOf(annos + [a]) == KeysOf(annos) + [a.GetKey()]
  {
  }

  /** The storage items written for the annotations, in list order: a later annotation with
    * the same key overwrites an earlier one. */
  function Written(annos: seq<Annotation>): map<string, Value>
  {
    if |annos| == 0 then map[]
    else Written(annos[..|annos| - 1])[annos[|annos| - 1].GetKey() := Image(annos[|annos| - 1])]
  }

  /** Items are written under exactly the keys of the list. */
  lemma {:induction false} WrittenKeys(annos: seq<Annotation>)
    ensures Written(annos).Keys == KeySet(annos)
    decreases |annos|
  {
    if |annos| > 0 {
      var n := |annos| - 1;
      WrittenKeys(annos[..n]);
      assert annos == annos[..n] + [annos[n]];
      KeysOfAppend(annos[..n], annos[n]);
    }
  }

  /** With distinct keys, each annotation's item is its own image. */
  lemma {:induction false} WrittenImages(annos: seq<Annotation>)
    requires NoDuplicates(KeysOf(annos))
    ensures forall i :: 0 <= i < |annos| ==> KeysOf(annos)[i] in Written(annos) && Written(annos)[KeysOf(annos)[i]] == Image(annos[i])
    decreases |annos|
  {
    WrittenKeys(annos);
    if |annos| > 0 {
      var n := |annos| - 1;
      var init := annos[..n];
      var keys := KeysOf(annos);
      assert annos == init + [annos[n]];
      KeysOfAppend(init, annos[n]);
      assert KeysOf(init) == keys[..n];
      WrittenImages(init);
      WrittenKeys(init);
      forall i | 0 <= i < n ensures keys[i] != keys[n] {
      }
    }
  }

  /** The annotations `loadFromStorage` rebuilds from the entries the index names, in index
    * order; a missing entry or one that is not an object is skipped. */
  function ReadAnnotations(storage: map<string, Value>, keys: seq<string>): seq<Annotation>
  {
    if |keys| == 0 then []
    else
      var init := ReadAnnotations(storage, keys[..|keys| - 1]);
      var k := keys[|keys| - 1];
      if k in storage && IsObjectLike(storage[k]) then init + [New(Fields(storage[k]))] else init
  }

  /** Only entries the index names are read, each at most once. */
  lemma {:induction false} ReadAnnotationsBound(storage: map<string, Value>, keys: seq<string>)
    ensures |ReadAnnotations(storage, keys)| <= |keys|
    ensures forall a :: a in ReadAnnotations(storage, keys) ==> WellFormed(a)
    decreases |keys|
  {
    if |keys| > 0 {
      ReadAnnotationsBound(storage, keys[..|keys| - 1]);
      var k := keys[|keys| - 1];
      if k in storage && IsObjectLike(storage[k]) {
        NewWellFormed(Fields(storage[k]));
      }
    }
  }

  /** Annotations whose storage items are their images read back as themselves. */
  lemma {:induction false} ReadBack(storage: map<string, Value>, annos: seq<Annotation>)
    requires Storable(annos)
    requires forall i :: 0 <= i < |annos| ==> KeysOf(annos)[i] in storage && storage[KeysOf(annos)[i]] == Image(annos[i])
    ensures ReadAnnotations(storage, KeysOf(annos)) == annos
    decreases |annos|
  {
    if |annos| > 0 {
      var n := |annos| - 1;
      assert annos == annos[..n] + [annos[n]];
      KeysOfAppend(annos[..n], annos[n]);
      ReadBack(storage, annos[..n]);
      PersistedRoundTrip(annos[n]);
    }
  }

  /** Annotations JSON carries over unchanged. */
  predicate Storable(annos: seq<Annotation>)
  {
    forall i :: 0 <= i < |annos| ==> WellFormed(annos[i]) && JsonSafeData(annos[i])
  }

  /** No annotation is stored under the name of the key index. */
  lemma IndexIsNoAnnotationKey(annos: seq<Annotation>)
    ensures "keys" !in KeySet(annos)
  {
    forall i | 0 <= i < |annos| ensures KeysOf(annos)[i] != "keys" {
      KeyIsNotIndex(annos[i]);
    }
  }

  /** The storage `saveAnnotationsForResource(k, given)` leaves: the old items of `k` removed,
    * every annotation of the new list written, and the index written last. */
  function SavedStorage(storage: map<string, Value>, annos: seq<Annotation>, k: string, given: seq<Annotation>): map<string, Value>
  {
    var current := Replaced(annos, k, given);
    ((storage - KeySet(OfResource(annos, k))) + Written(current))["keys" := Index(KeysOf(current))]
  }

  /** What the save leaves in storage: the index of the new list; an item for every annotation
    * of it, its image when the keys are distinct; no item for a removed annotation not
    * written again; every other item as it was. */
  lemma SavedStorageFacts(storage: map<string, Value>, annos: seq<Annotation>, k: string, given: seq<Annotation>)
    ensures var current := Replaced(annos, k, given);
      var saved := SavedStorage(storage, annos, k, given);
      StoredKeys(saved) == KeysOf(current) &&
      (forall x :: x in KeySet(current) ==> x in saved) &&
      (NoDuplicates(KeysOf(current)) ==>
        forall i :: 0 <= i < |current| ==> saved[KeysOf(current)[i]] == Image(current[i])) &&
      (forall x :: x in KeySet(OfResource(annos, k)) && x !in KeySet(current) ==> x !in saved) &&
      (forall x :: x in storage && x !in KeySet(OfResource(annos, k)) && x !in KeySet(current) && x != "keys" ==>
        x in saved && saved[x] == storage[x])
  {
    var current := Replaced(annos, k, given);
    IndexRoundTrip(KeysOf(current));
    WrittenKeys(current);
    if NoDuplicates(KeysOf(current)) {
      WrittenImages(current);
    }
    IndexIsNoAnnotationKey(current);
    IndexIsNoAnnotationKey(OfResource(annos, k));
  }

  /** With distinct keys, what a save leaves in storage reloads as the saved list. */
  lemma SavedReloads(storage: map<string, Value>, annos: seq<Annotation>, k: string, given: seq<Annotation>)
    requires Storable(Replaced(annos, k, given)) && NoDuplicates(KeysOf(Replaced(annos, k, given)))
    ensures var saved := SavedStorage(storage, annos, k, given);
      ReadAnnotations(saved, StoredKeys(saved)) == Replaced(annos, k, given)
  {
    var current := Replaced(annos, k, given);
    SavedStorageFacts(storage, annos, k, given);
    ReadBack(SavedStorage(storage, annos, k, given), current);
  }

  /** The annotations built from the backend's plain objects, in data order. */
  function DataAnnotations(data: seq<map<string, Value>>): (r: seq<Annotation>)
    ensures |r| == |data| && forall i :: 0 <= i < |data| ==> r[i] == New(data[i])
  {
    seq(|data|, i requires 0 <= i < |data| => New(data[i]))
  }

  /** The storage `loadFromData` leaves. */
  function LoadedStorage(annos: seq<Annotation>): map<string, Value>
  {
    Written(annos)["keys" := Index(KeysOf(annos))]
  }

  /** With distinct keys, and properties JSON carries, what `loadFromData` writes reloads
    * through `loadFromStorage` as the same list. */
  lemma LoadedDataReloads(data: seq<map<string, Value>>)
    requires Storable(DataAnnotations(data)) && NoDuplicates(KeysOf(DataAnnotations(data)))
    ensures var storage := LoadedStorage(DataAnnotations(data));
      StoredKeys(storage) == KeysOf(DataAnnotations(data)) &&
      ReadAnnotations(storage, StoredKeys(storage)) == DataAnnotations(data)
  {
    var annos := DataAnnotations(data);
    IndexRoundTrip(KeysOf(annos));
    WrittenKeys(annos);
    WrittenImages(annos);
    IndexIsNoAnnotationKey(annos);
    ReadBack(LoadedStorage(annos), annos);
  }

  // ---------------------------------------------------------------------
  // The loops of the actions, over plain values

  /** `for (a of old) await storage.removeItem(a.getKey())` */
  method RemoveItems(storage: map<string, Value>, removed: seq<Annotation>) returns (storage': map<string, Value>)
    ensures storage' == storage - KeySet(removed)
  {
    storage' := storage;
    for i := 0 to |removed|
      invariant storage' == storage - KeySet(removed[..i])
    {
      assert removed[..i + 1] == removed[..i] + [removed[i]];
      KeysOfAppend(removed[..i], removed[i]);
      storage' := storage' - {removed[i].GetKey()};
    }
    assert removed[..|removed|] == removed;
  }

  /** `for (a of annotations) await storage.setItem(a.getKey(), JSON.stringify(a.getData()))` */
  method WriteItems(storage: map<string, Value>, annos: seq<Annotation>) returns (storage': map<string, Value>)
    ensures storage' == storage + Written(annos)
  {
    storage' := storage;
    for i := 0 to |annos|
      invariant storage' == storage + Written(annos[..i])
    {
      assert annos[..i + 1][..i] == annos[..i];
      MergeUpdate(storage, Written(annos[..i]), annos[i].GetKey(), Image(annos[i]));
      storage' := storage'[annos[i].GetKey() := Image(annos[i])];
    }
    assert annos[..|annos|] == annos;
  }

  /** The loop of `loadFromStorage`. */
  method ReadItems(storage: map<string, Value>, keys: seq<string>) returns (annos: seq<Annotation>)
    ensures annos == ReadAnnotations(storage, keys)
  {
    annos := [];
    for i := 0 to |keys|
      invariant annos == ReadAnnotations(storage, keys[..i])
    {
      var key := keys[i];
      assert keys[..i + 1][..i] == keys[..i];
      if key in storage && IsObjectLike(storage[key]) {
        annos := annos + [New(Fields(storage[key]))];
      }
    }
    assert keys[..|keys|] == keys;
  }

  /** The loop of `loadFromData`: each annotation built, listed, indexed and written. */
  method FileAnnotations(data: seq<map<string, Value>>) returns (annos: seq<Annotation>, keys: seq<string>, written: map<string, Value>)
    ensures annos == DataAnnotations(data) && keys == KeysOf(annos) && written == Written(annos)
  {
    ghost var all := DataAnnotations(data);
    annos, keys, written := [], [], map[];
    for i := 0 to |data|
      invariant annos == all[..i] && keys == KeysOf(annos) && written == Written(annos)
    {
      var annotation := New(data[i]);
      assert all[i] == annotation;
      TakeOneMore(all, i);
      annos := annos + [annotation];
      keys := keys + [annotation.GetKey()];
      written := written[annotation.GetKey() := Image(annotation)];
    }
    assert all[..|data|] == all;
  }

  class AnnotationsStore {
    /** The keys of the annotations, in list order. */
    var keys: seq<string>
    var annotations: seq<Annotation>
    /** The "writer-annotations" storage instance. */
    var storage: map<string, Value>

    /** The start state next to whatever the storage already holds. */
    constructor(stored: map<string, Value>)
      ensures keys == [] && annotations == [] && storage == stored
    {
      keys, annotations := [], [];
      storage := stored;
    }

    /** `getAnnotationsForResource(k)` */
    function GetAnnotationsForResource(k: string): (r: seq<Annotation>)
      reads this
      ensures forall a :: a in r <==> a in annotations && a.resource_key == k
    {
      SelectMembers(annotations, k);
      OfResource(annotations, k)
    }

    method ClearStorage()
      modifies this
      ensures storage == map[] && keys == [] && annotations == []
    {
      storage := map[];
      keys, annotations := [], [];
    }

    /** Reset, then load the annotations the stored index names. */
    method LoadFromStorage()
      modifies this
      ensures storage == old(storage)
      ensures keys == StoredKeys(storage) && annotations == ReadAnnotations(storage, keys)
    {
      keys, annotations := [], [];
      if "keys" in storage {
        keys := IndexKeys(storage["keys"]);
      }
      annotations := ReadItems(storage, keys);
    }

    /** Replace everything by the backend's annotations, in data order, and persist them. A
      * null element throws and ends the loop, and data that is not iterable throws before it;
      * the error is caught, and the annotations made so far stay, without an index. */
    method LoadFromData(data: Value)
      modifies this
      ensures annotations == DataAnnotations(RecordData(data)) && keys == KeysOf(annotations)
      ensures storage == if IteratesFully(data) then LoadedStorage(annotations) else Written(annotations)
    {
      storage := map[];
      keys, annotations := [], [];
      var written;
      annotations, keys, written := FileAnnotations(RecordData(data));
      storage := written;
      if IteratesFully(data) {
        storage := storage["keys" := Index(keys)];
      }
    }

    /** Put `given` in place of the annotations of resource `k`, in front of the others. */
    method SaveAnnotationsForResource(k: string, given: seq<Annotation>)
      modifies this
      ensures annotations == Replaced(old(annotations), k, given) && keys == KeysOf(annotations)
      ensures storage == SavedStorage(old(storage), old(annotations), k, given)
    {
      var removed := OfResource(annotations, k);
      var others := OtherResources(annotations, k);
      keys, annotations := [], [];
      annotations := given + others;
      keys := KeysOf(annotations);
      var s := RemoveItems(storage, removed);
      s := WriteItems(s, annotations);
      storage := s["keys" := Index(keys)];
    }
  }
}
