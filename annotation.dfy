// A PDF annotation: a mark the writer placed on a page or paragraph of a
// resource, with the raw data the PDF viewer keeps for it.

module AnnotationData {
  import opened Js

  /** `local_key`, `parent_number` and `value` are kept as given; only the resource key is
    * turned into a string. */
  datatype Annotation = Annotation(resource_key: string, local_key: Value, parent_number: Value, value: Value)
  {
    function SetData(data: map<string, Value>): (r: Annotation)
      ensures IsSet(Get(data, "resource_key")) ==> r.resource_key == ToStr(Get(data, "resource_key"))
      ensures IsSet(Get(data, "local_key")) ==> r.local_key == Get(data, "local_key")
      ensures IsSet(Get(data, "parent_number")) ==> r.parent_number == Get(data, "parent_number")
      ensures IsSet(Get(data, "value")) ==> r.value == Get(data, "value")
      ensures !IsSet(Get(data, "resource_key")) ==> r.resource_key == resource_key
      ensures !IsSet(Get(data, "local_key")) ==> r.local_key == local_key
      ensures !IsSet(Get(data, "parent_number")) ==> r.parent_number == parent_number
      ensures !IsSet(Get(data, "value")) ==> r.value == value
    {
      var rk := Get(data, "resource_key");
      var number := Get(data, "parent_number");
      var lk := Get(data, "local_key");
      var v := Get(data, "value");
      Annotation(
        if IsSet(rk) then ToStr(rk) else resource_key,
        if IsSet(lk) then lk else local_key,
        if IsSet(number) then number else parent_number,
        if IsSet(v) then v else value)
    }

    function GetData(): map<string, Value>
    {
      map[
        "resource_key" := Str(resource_key),
        "local_key" := local_key,
        "parent_number" := parent_number,
        "value" := value]
    }

    /** `'ANNO-' + resource_key + '-' + local_key` */
    function GetKey(): string
    {
      "ANNO-" + resource_key + "-" + ToStr(local_key)
    }

    /** `new Annotation(this.getData())` */
    function GetClone(): Annotation
    {
      New(GetData())
    }
  }

  const Default := Annotation("", Str(""), Int(0), Obj(map[]))

  function New(data: map<string, Value>): Annotation
  {
    Default.SetData(data)
  }

  /** The properties an annotation built from data can carry: none is undefined or null. */
  predicate WellFormed(a: Annotation)
  {
    IsSet(a.local_key) && IsSet(a.parent_number) && IsSet(a.value)
  }

  /** Properties that JSON writes and reads back unchanged. */
  predicate JsonSafeData(a: Annotation)
  {
    JsonSafe(a.local_key) && JsonSafe(a.parent_number) && JsonSafe(a.value)
  }

  lemma NewWellFormed(data: map<string, Value>)
    ensures WellFormed(New(data))
  {
  }

  /** `getData` has exactly the four properties, and `setData` takes each of them back. */
  lemma GetDataFields(a: Annotation)
    ensures a.GetData().Keys == {"resource_key", "local_key", "parent_number", "value"}
    ensures WellFormed(a) ==> Default.SetData(a.GetData()) == a
  {
  }

  /** A clone has the same properties, so the same data and the same key, as the original. */
  lemma CloneIsCopy(a: Annotation)
    requires WellFormed(a)
    ensures a.GetClone() == a
    ensures a.GetClone().GetData() == a.GetData() && a.GetClone().GetKey() == a.GetKey()
  {
    GetDataFields(a);
  }

  /** Every key starts with "ANNO-", so no annotation is stored under the name of the key index. */
  lemma KeyIsNotIndex(a: Annotation)
    ensures a.GetKey()[..5] == "ANNO-" && a.GetKey() != "keys"
  {
    assert a.GetKey()[..5] == "ANNO-";
  }

  /** Within one resource, two annotations share a key exactly when their local keys print
    * the same. */
  lemma KeyWithinResource(a: Annotation, b: Annotation)
    requires a.resource_key == b.resource_key
    ensures a.GetKey() == b.GetKey() <==> ToStr(a.local_key) == ToStr(b.local_key)
  {
    var p := "ANNO-" + a.resource_key + "-";
    assert a.GetKey() == p + ToStr(a.local_key) && b.GetKey() == p + ToStr(b.local_key);
    if a.GetKey() == b.GetKey() {
      assert a.GetKey()[|p|..] == ToStr(a.local_key);
      assert b.GetKey()[|p|..] == ToStr(b.local_key);
    }
  }

  /** The key does not tell the resource apart from the local key: resource "a-b" with local
    * key "c" and resource "a" with local key "b-c" are both stored as "ANNO-a-b-c". */
  lemma KeysOfDifferentResourcesCollide()
    ensures Annotation("a-b", Str("c"), Int(0), Obj(map[])).GetKey() ==
      Annotation("a", Str("b-c"), Int(0), Obj(map[])).GetKey()
  {
  }

  /** The storage item of an annotation, `JSON.stringify(annotation.getData())` read back. */
  function Image(a: Annotation): Value
  {
    JsonCopy(Obj(a.GetData()))
  }

  /** Written as JSON and read back, an annotation whose properties JSON carries is unchanged. */
  lemma PersistedRoundTrip(a: Annotation)
    requires WellFormed(a) && JsonSafeData(a)
    ensures IsObjectLike(Image(a)) && New(Fields(Image(a))) == a
  {
    assert JsonSafe(Obj(a.GetData())) by {
      assert forall k :: k in a.GetData() ==> JsonSafe(a.GetData()[k]);
    }
    JsonCopyOfSafe(Obj(a.GetData()));
    GetDataFields(a);
  }
}
