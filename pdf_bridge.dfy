// The value-level parts of the PDF annotation bridge
// (dist/annotate-pdf/iframe-bridge.js): the structural `diff` of two
// serialised editors and `arrayEquals` built on it, `externEntry`, the
// `state` cell, and the keep/delete filter of `checkForChanges`.
//
// Two arrays or objects are always distinct references here, so `left ===
// right` never holds for them and `diff` always compares their contents.

module PdfBridge {
  import opened Js

  // ---------------------------------------------------------------------
  // diff

  /** What `diff(left, right)` does: return `null`, return a report object, or throw. */
  datatype Outcome = Same | Differ(report: Value) | Throws

  function Max(a: nat, b: nat): nat
  {
    if a < b then b else a
  }

  /** `e[i]`: undefined past the end. */
  function At(e: seq<Value>, i: nat): Value
  {
    if i < |e| then e[i] else Undefined
  }

  /** `{leftType, rightType}` */
  function TypeReport(left: string, right: string): Value
  {
    Obj(map["leftType" := Str(left), "rightType" := Str(right)])
  }

  /** `diff(undefined, v)`, which never recurses. */
  function FromUndefined(v: Value): (r: Outcome)
    ensures r == Same <==> v.Undefined?
    ensures r != Throws
  {
    if v.Undefined? then Same else Differ(TypeReport("undefined", TypeOf(v)))
  }

  /** `diff(left, right)`. A null on either side of two objects makes `Object.keys(null)` or
    * `right.constructor` throw. */
  function Diff(left: Value, right: Value): (r: Outcome)
    ensures StrictEq(left, right) ==> r == Same
    ensures TypeOf(left) != TypeOf(right) ==> r == Differ(TypeReport(TypeOf(left), TypeOf(right)))
    ensures r.Differ? ==> r.report.Obj?
    decreases left, 3
  {
    if StrictEq(left, right) then Same
    else if TypeOf(left) != TypeOf(right) then Differ(TypeReport(TypeOf(left), TypeOf(right)))
    else if TypeOf(left) != "object" then Differ(Obj(map["left" := left, "right" := right]))
    else match left
      case Arr(le) =>
        if right.Null? then Throws
        else if !right.Arr? then Differ(TypeReport("Array", "Object"))
        else ArrayDiff(le, right.elems)
      case Obj(lm) =>
        if right.Null? then Throws
        else ObjectDiff(lm, Entries(right))
      case _ => Throws
  }

  /** The loop of `diff` over the indices of two arrays, up to the longer length: the first
    * index that throws makes the whole comparison throw. */
  function ArrayDiff(le: seq<Value>, re: seq<Value>): Outcome
    decreases Arr(le), 2
  {
    if exists i :: 0 <= i < Max(|le|, |re|) && ElemDiff(le, re, i).Throws? then Throws
    else if exists i :: 0 <= i < Max(|le|, |re|) && ElemDiff(le, re, i).Differ? then
      Differ(Obj(map["Array" := Obj(ElemDiffs(le, re))]))
    else Same
  }

  /** The loop of `diff` over the union of the keys of an object and an object or array. */
  function ObjectDiff(lm: map<string, Value>, re: map<string, Value>): Outcome
    decreases Obj(lm), 2
  {
    if exists k :: k in lm.Keys + re.Keys && PropDiff(lm, re, k).Throws? then Throws
    else if exists k :: k in lm.Keys + re.Keys && PropDiff(lm, re, k).Differ? then
      Differ(Obj(map["Object" := Obj(PropDiffs(lm, re))]))
    else Same
  }

  /** `diff(left[i], right[i])` */
  function ElemDiff(le: seq<Value>, re: seq<Value>, i: nat): Outcome
    decreases Arr(le), 0
  {
    if i < |le| then Diff(le[i], At(re, i)) else FromUndefined(At(re, i))
  }

  /** The differing indices of two arrays, keyed like `diffs[i]`. */
  function ElemDiffs(le: seq<Value>, re: seq<Value>): map<string, Value>
    decreases Arr(le), 1
  {
    NatToStringInjective();
    map i | 0 <= i < Max(|le|, |re|) && ElemDiff(le, re, i).Differ? :: NatToString(i) := ElemDiff(le, re, i).report
  }

  /** `diff(left[key], right[key])` */
  function PropDiff(lm: map<string, Value>, re: map<string, Value>, k: string): Outcome
    decreases Obj(lm), 0
  {
    if k in lm then Diff(lm[k], Get(re, k)) else FromUndefined(Get(re, k))
  }

  /** The differing keys of the union of both key sets. */
  function PropDiffs(lm: map<string, Value>, re: map<string, Value>): map<string, Value>
    decreases Obj(lm), 1
  {
    map k | k in lm.Keys + re.Keys && PropDiff(lm, re, k).Differ? :: PropDiff(lm, re, k).report
  }

  /** `arrayEquals(left, right)` */
  predicate ArrayEquals(left: Value, right: Value)
  {
    Diff(left, right) == Same
  }

  /** Structural equality, stated on its own: equal primitives; two arrays that agree index by
    * index, where the longer one holds only undefined past the shorter; an object against an
    * object or array that agrees on every key of the object, where the other side holds only
    * undefined under its remaining keys. */
  predicate Equal(a: Value, b: Value)
    decreases a
  {
    StrictEq(a, b) ||
    match a
    case Arr(le) =>
      b.Arr? &&
      (forall i :: 0 <= i < |le| ==> Equal(le[i], At(b.elems, i))) &&
      (forall i :: |le| <= i < |b.elems| ==> b.elems[i].Undefined?)
    case Obj(lm) =>
      IsReference(b) &&
      (forall k :: k in lm ==> Equal(lm[k], Get(Entries(b), k))) &&
      (forall k :: k in Entries(b) && k !in lm ==> Entries(b)[k].Undefined?)
    case _ => false
  }

  /** No NaN anywhere inside. */
  predicate NoNaN(v: Value)
    decreases v
  {
    match v
    case Num(n) => !n.NaN?
    case Arr(e) => forall i :: 0 <= i < |e| ==> NoNaN(e[i])
    case Obj(m) => forall k :: k in m ==> NoNaN(m[k])
    case _ => true
  }

  /** Two arrays giving `null` give `null` at every index up to the longer length. */
  lemma ArraySameElems(le: seq<Value>, re: seq<Value>)
    ensures Diff(Arr(le), Arr(re)) == Same ==> forall i :: 0 <= i < Max(|le|, |re|) ==> ElemDiff(le, re, i) == Same
  {
    assert !StrictEq(Arr(le), Arr(re)) && TypeOf(Arr(le)) == TypeOf(Arr(re)) == "object";
    assert Diff(Arr(le), Arr(re)) == ArrayDiff(le, re);
  }

  /** Two arrays give `null` when every index up to the longer length does. */
  lemma ElemsSameArray(le: seq<Value>, re: seq<Value>)
    ensures (forall i :: 0 <= i < Max(|le|, |re|) ==> ElemDiff(le, re, i) == Same) ==> Diff(Arr(le), Arr(re)) == Same
  {
    assert !StrictEq(Arr(le), Arr(re)) && TypeOf(Arr(le)) == TypeOf(Arr(re)) == "object";
    assert Diff(Arr(le), Arr(re)) == ArrayDiff(le, re);
  }

  /** An object giving `null` against an object or array gives `null` at every key of either. */
  lemma ObjectSameProps(lm: map<string, Value>, b: Value)
    requires IsReference(b)
    ensures Diff(Obj(lm), b) == Same ==> forall k :: k in lm.Keys + Entries(b).Keys ==> PropDiff(lm, Entries(b), k) == Same
  {
    assert !StrictEq(Obj(lm), b) && TypeOf(Obj(lm)) == TypeOf(b) == "object";
    assert Diff(Obj(lm), b) == ObjectDiff(lm, Entries(b));
  }

  /** An object gives `null` against an object or array when every key of either does. */
  lemma PropsSameObject(lm: map<string, Value>, b: Value)
    requires IsReference(b)
    ensures (forall k :: k in lm.Keys + Entries(b).Keys ==> PropDiff(lm, Entries(b), k) == Same) ==> Diff(Obj(lm), b) == Same
  {
    assert !StrictEq(Obj(lm), b) && TypeOf(Obj(lm)) == TypeOf(b) == "object";
    assert Diff(Obj(lm), b) == ObjectDiff(lm, Entries(b));
  }

  /** `diff` returns `null` exactly for structurally equal values. */
  lemma {:induction false} DiffSameIffEqual(a: Value, b: Value)
    ensures Diff(a, b) == Same <==> Equal(a, b)
    decreases a
  {
    if StrictEq(a, b) || TypeOf(a) != TypeOf(b) || TypeOf(a) != "object" {
    } else if a.Arr? && b.Arr? {
      var le, re := a.elems, b.elems;
      if Diff(a, b) == Same {
        ArraySameElems(le, re);
        forall i | 0 <= i < |le|
          ensures Equal(le[i], At(re, i))
        {
          assert ElemDiff(le, re, i) == Same;
          DiffSameIffEqual(le[i], At(re, i));
        }
        forall i | |le| <= i < |re|
          ensures re[i].Undefined?
        {
          assert ElemDiff(le, re, i) == Same;
        }
      } else {
        ElemsSameArray(le, re);
        var i :| 0 <= i < Max(|le|, |re|) && ElemDiff(le, re, i) != Same;
        if i < |le| {
          DiffSameIffEqual(le[i], At(re, i));
        }
      }
    } else if a.Obj? && IsReference(b) {
      var lm, re := a.fields, Entries(b);
      if Diff(a, b) == Same {
        ObjectSameProps(lm, b);
        forall k | k in lm
          ensures Equal(lm[k], Get(re, k))
        {
          assert PropDiff(lm, re, k) == Same;
          DiffSameIffEqual(lm[k], Get(re, k));
        }
        forall k | k in re && k !in lm
          ensures re[k].Undefined?
        {
          assert PropDiff(lm, re, k) == Same;
        }
      } else {
        PropsSameObject(lm, b);
        var k :| k in lm.Keys + re.Keys && PropDiff(lm, re, k) != Same;
        if k in lm {
          DiffSameIffEqual(lm[k], Get(re, k));
        }
      }
    }
  }

  lemma {:induction false} EqualReflexive(v: Value)
    requires NoNaN(v)
    ensures Equal(v, v)
    decreases v
  {
    match v
    case Arr(e) =>
      forall i | 0 <= i < |e|
        ensures Equal(e[i], At(e, i))
      {
        EqualReflexive(e[i]);
      }
    case Obj(m) =>
      forall k | k in m
        ensures Equal(m[k], Get(m, k))
      {
        EqualReflexive(m[k]);
      }
    case Num(n) =>
    case _ =>
  }

  /** A value without NaN shows no difference to itself, however deeply nested. */
  lemma DiffReflexive(v: Value)
    requires NoNaN(v)
    ensures Diff(v, v) == Same
  {
    EqualReflexive(v);
    DiffSameIffEqual(v, v);
  }

  /** NaN differs from NaN: `{left: NaN, right: NaN}`. */
  lemma NaNDiffers()
    ensures Diff(Num(NaN), Num(NaN)) == Differ(Obj(map["left" := Num(NaN), "right" := Num(NaN)]))
  {
  }

  /** An object and an array with the same entries: `null` one way round... */
  lemma ObjectVersusArraySame()
    ensures Diff(Obj(map["0" := Int(1)]), Arr([Int(1)])) == Same
  {
    var b := Arr([Int(1)]);
    assert NatToString(0) == "0";
    assert Entries(b) == map["0" := Int(1)];
    assert Equal(Obj(map["0" := Int(1)]), b);
    DiffSameIffEqual(Obj(map["0" := Int(1)]), b);
  }

  /** ...and a type report the other way round. */
  lemma ArrayVersusObjectDiffers()
    ensures Diff(Arr([Int(1)]), Obj(map["0" := Int(1)])) == Differ(TypeReport("Array", "Object"))
  {
  }

  /** Comparing an object or array with null throws, in either order. */
  lemma NullThrows(v: Value)
    requires IsReference(v)
    ensures Diff(v, Null) == Throws && Diff(Null, v) == Throws
  {
  }

  /** A trailing undefined element is no difference. */
  lemma TrailingUndefined(x: Value)
    requires NoNaN(x)
    ensures Diff(Arr([x]), Arr([x, Undefined])) == Same
  {
    EqualReflexive(x);
    DiffSameIffEqual(Arr([x]), Arr([x, Undefined]));
  }

  /** An array of strings. */
  function Strings(s: seq<string>): (r: Value)
    ensures r.Arr? && |r.elems| == |s|
    ensures forall i :: 0 <= i < |s| ==> r.elems[i] == Str(s[i])
  {
    Arr(seq(|s|, i requires 0 <= i < |s| => Str(s[i])))
  }

  /** For arrays of strings, `arrayEquals` is equality of the lists. */
  lemma ArrayEqualsStrings(a: seq<string>, b: seq<string>)
    ensures ArrayEquals(Strings(a), Strings(b)) <==> a == b
  {
    DiffSameIffEqual(Strings(a), Strings(b));
    var A, B := Strings(a).elems, Strings(b).elems;
    if Equal(Strings(a), Strings(b)) {
      assert |b| <= |a| by {
        assert At(B, |a|).Undefined? || |B| <= |a|;
      }
      assert |a| <= |b| by {
        assert Equal(At(A, |b|), At(B, |b|)) || |A| <= |b|;
      }
      forall i | 0 <= i < |a|
        ensures a[i] == b[i]
      {
        assert Equal(A[i], At(B, i));
      }
    } else if a == b {
      forall i | 0 <= i < |A|
        ensures Equal(A[i], At(B, i))
      {
        assert StrictEq(A[i], B[i]);
      }
    }
  }

  // ---------------------------------------------------------------------
  // Entries

  /** `externEntry(entry)` on the entry's properties. */
  function ExternEntry(entry: map<string, Value>): (r: Value)
    ensures r.Obj? && r.fields.Keys == {"id", "page", "intern"}
    ensures forall k :: k in r.fields ==> r.fields[k] == Get(entry, k)
  {
    Obj(map["id" := Get(entry, "id"), "page" := Get(entry, "page"), "intern" := Get(entry, "intern")])
  }

  /** The projection keeps nothing else: taken twice, it is taken once. */
  lemma ExternOfExtern(entry: map<string, Value>)
    ensures ExternEntry(Fields(ExternEntry(entry))) == ExternEntry(entry)
  {
  }

  /** The entry properties the filter reads: its id, its page, its serialised editor and the
    * length of its `pending` queue (undefined reads as no queue). */
  datatype BridgeEntry = BridgeEntry(id: Value, page: Value, intern: Value, pendingCount: nat)

  function Props(x: BridgeEntry): map<string, Value>
  {
    map["id" := x.id, "page" := x.page, "intern" := x.intern]
  }

  /** `isUsed(x)` of `checkForChanges`. */
  predicate IsUsed(x: BridgeEntry, page: Value, usedIds: seq<Value>, updating: Value)
  {
    !StrictEq(x.page, page) || Includes(usedIds, x.id) || x.pendingCount > 0 || StrictEq(updating, x.id)
  }

  /** `entries.filter(isUsed)` */
  function Used(es: seq<BridgeEntry>, page: Value, usedIds: seq<Value>, updating: Value): (r: seq<BridgeEntry>)
    ensures |r| <= |es|
    ensures forall x :: x in r <==> x in es && IsUsed(x, page, usedIds, updating)
  {
    if |es| == 0 then []
    else (if IsUsed(es[0], page, usedIds, updating) then [es[0]] else []) + Used(es[1..], page, usedIds, updating)
  }

  /** `entries.filter(x => !isUsed(x))` */
  function Unused(es: seq<BridgeEntry>, page: Value, usedIds: seq<Value>, updating: Value): (r: seq<BridgeEntry>)
    ensures |r| <= |es|
    ensures forall x :: x in r <==> x in es && !IsUsed(x, page, usedIds, updating)
  {
    if |es| == 0 then []
    else (if IsUsed(es[0], page, usedIds, updating) then [] else [es[0]]) + Unused(es[1..], page, usedIds, updating)
  }

  /** The two filters split the entries: nothing is lost or duplicated. */
  lemma {:induction false} FiltersSplit(es: seq<BridgeEntry>, page: Value, usedIds: seq<Value>, updating: Value)
    ensures multiset(Used(es, page, usedIds, updating)) + multiset(Unused(es, page, usedIds, updating)) == multiset(es)
    ensures |Used(es, page, usedIds, updating)| + |Unused(es, page, usedIds, updating)| == |es|
  {
    if |es| > 0 {
      FiltersSplit(es[1..], page, usedIds, updating);
      assert es == [es[0]] + es[1..];
    }
  }

  /** The `delete` events of the removed entries whose id is not in `deletedIds`. */
  function Reports(deleted: seq<BridgeEntry>, deletedIds: seq<Value>): (r: seq<Value>)
    ensures |r| <= |deleted|
    ensures forall x :: x in deleted && !Includes(deletedIds, x.id) ==> ExternEntry(Props(x)) in r
    ensures forall v :: v in r ==> exists x :: x in deleted && !Includes(deletedIds, x.id) && v == ExternEntry(Props(x))
  {
    if |deleted| == 0 then []
    else
      (if Includes(deletedIds, deleted[0].id) then [] else [ExternEntry(Props(deleted[0]))]) +
      Reports(deleted[1..], deletedIds)
  }

  /** `deletedIds.filter(id => !deleted.find(x => x.id === id))` */
  function Pruned(deletedIds: seq<Value>, deleted: seq<BridgeEntry>): (r: seq<Value>)
    ensures |r| <= |deletedIds|
    ensures forall v :: v in r <==> v in deletedIds && forall x :: x in deleted ==> !StrictEq(x.id, v)
  {
    if |deletedIds| == 0 then []
    else
      (if exists x :: x in deleted && StrictEq(x.id, deletedIds[0]) then [] else [deletedIds[0]]) +
      Pruned(deletedIds[1..], deleted)
  }

  /** An entry on another page, one with pending actions and the one being updated all survive. */
  lemma KeptEntries(es: seq<BridgeEntry>, page: Value, usedIds: seq<Value>, updating: Value, x: BridgeEntry)
    requires x in es
    requires !StrictEq(x.page, page) || x.pendingCount > 0 || StrictEq(updating, x.id)
    ensures x in Used(es, page, usedIds, updating) && x !in Unused(es, page, usedIds, updating)
  {
  }

  /** The id list the filter ends with no longer names a removed entry by `===`. */
  lemma PrunedForgetsDeleted(deletedIds: seq<Value>, deleted: seq<BridgeEntry>, x: BridgeEntry, v: Value)
    requires x in deleted && StrictEq(x.id, v)
    ensures v !in Pruned(deletedIds, deleted)
  {
  }

  /** The entries the bridge tracks, and the events it dispatches. */
  class Bridge {
    var entries: seq<BridgeEntry>
    var updating: Value
    var deletedIds: seq<Value>
    /** The details of the dispatched `delete` events, in order. */
    var deleteEvents: seq<Value>

    constructor()
      ensures entries == [] && updating == Null && deletedIds == [] && deleteEvents == []
    {
      entries, updating, deletedIds, deleteEvents := [], Null, [], [];
    }

    /** The filter of `checkForChanges`, given the current page and the ids that
      * `createOrUpdateEntry` returned for the editors on it. */
    method CheckForChanges(page: Value, usedIds: seq<Value>)
      modifies this
      ensures entries == Used(old(entries), page, usedIds, old(updating))
      ensures updating == Null
      ensures var deleted := Unused(old(entries), page, usedIds, old(updating));
        deleteEvents == old(deleteEvents) + Reports(deleted, old(deletedIds)) &&
        deletedIds == Pruned(old(deletedIds), deleted)
    {
      var deleted := Unused(entries, page, usedIds, updating);
      entries := Used(entries, page, usedIds, updating);
      updating := Null;
      deleteEvents := deleteEvents + Reports(deleted, deletedIds);
      deletedIds := Pruned(deletedIds, deleted);
    }
  }

  // ---------------------------------------------------------------------
  // state

  /** `state(initValue, onUpdate)`: a cell whose setter hands the old and the new value to
    * `onUpdate` before it stores the new one. */
  class State {
    var value: Value
    /** The `(old, new)` pairs passed to `onUpdate`, in order. */
    var updates: seq<(Value, Value)>

    constructor(initValue: Value)
      ensures value == initValue && updates == []
    {
      value, updates := initValue, [];
    }

    /** A call with the arguments `args`: no argument reads, a first argument writes. */
    method Call(args: seq<Value>) returns (r: Value)
      modifies this
      ensures |args| == 0 ==> r == old(value) && value == old(value) && updates == old(updates)
      ensures |args| > 0 ==> r == Undefined && value == args[0] && updates == old(updates) + [(old(value), args[0])]
    {
      if |args| == 0 {
        return value;
      }
      updates := updates + [(value, args[0])];
      value := args[0];
      r := Undefined;
    }
  }
}
