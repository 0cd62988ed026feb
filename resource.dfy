// A resource the writer may consult: an instruction, a solution, a file or a
// link, shown embedded or opened outside the application.

module ResourceData {
  import opened Js

  const TYPE_FILE := "file"
  const TYPE_URL := "url"
  const TYPE_INSTRUCTION := "instruct"
  const TYPE_SOLUTION := "solution"

  /** `Resource.ALLOWED_TYPES` */
  const ALLOWED_TYPES: seq<Value> := [Str(TYPE_FILE), Str(TYPE_URL), Str(TYPE_INSTRUCTION), Str(TYPE_SOLUTION)]

  /** The types whose resource is a PDF document to preload. */
  const PDF_TYPES: seq<Value> := [Str(TYPE_FILE), Str(TYPE_SOLUTION), Str(TYPE_INSTRUCTION)]

  /** `kind` is the `type` property: null (None) until data names an allowed type; `size` is null (None) until data
    * gives one, which is then parsed as an integer. */
  datatype Resource = Resource(key: string, title: string, kind: Option<string>, embedded: bool,
                               source: string, url: string, mimetype: Value, size: Option<Number>)
  {
    /** The properties are applied in the order of the class: the type first, so that a
      * source given for a url resource becomes its url, and an explicit url last. */
    function SetData(data: map<string, Value>): (r: Resource)
      ensures Get(data, "type") in ALLOWED_TYPES ==> r.kind == Some(Get(data, "type").s)
      ensures Get(data, "type") !in ALLOWED_TYPES ==> r.kind == kind
      ensures IsSet(Get(data, "url")) ==> r.url == ToStr(Get(data, "url"))
      ensures !IsSet(Get(data, "url")) && IsSet(Get(data, "source")) && r.kind == Some(TYPE_URL) ==> r.url == r.source
      ensures !IsSet(Get(data, "url")) && !(IsSet(Get(data, "source")) && r.kind == Some(TYPE_URL)) ==> r.url == url
      ensures r.size == if IsSet(Get(data, "size")) then Some(ParseInt(Get(data, "size"))) else size
      ensures r.key == if IsSet(Get(data, "key")) then ToStr(Get(data, "key")) else key
      ensures r.title == if IsSet(Get(data, "title")) then ToStr(Get(data, "title")) else title
      ensures r.embedded == if IsSet(Get(data, "embedded")) then Truthy(Get(data, "embedded")) else embedded
      ensures r.source == if IsSet(Get(data, "source")) then ToStr(Get(data, "source")) else source
      ensures r.mimetype == if IsSet(Get(data, "mimetype")) then Get(data, "mimetype") else mimetype
    {
      var k := Get(data, "key");
      var t := Get(data, "title");
      var ty := Get(data, "type");
      var e := Get(data, "embedded");
      var src := Get(data, "source");
      var u := Get(data, "url");
      var m := Get(data, "mimetype");
      var sz := Get(data, "size");
      var kind' := TypeFrom(ty, kind);
      var source' := if IsSet(src) then ToStr(src) else source;
      var url' := if IsSet(src) && kind' == Some(TYPE_URL) then source' else url;
      Resource(
        if IsSet(k) then ToStr(k) else key,
        if IsSet(t) then ToStr(t) else title,
        kind',
        if IsSet(e) then Truthy(e) else embedded,
        source',
        if IsSet(u) then ToStr(u) else url',
        if IsSet(m) then m else mimetype,
        if IsSet(sz) then Some(ParseInt(sz)) else size)
    }

    /** The properties that are persisted; the source is not among them. */
    function GetData(): map<string, Value>
    {
      map[
        "key" := Str(key),
        "title" := Str(title),
        "type" := if kind.Some? then Str(kind.value) else Null,
        "embedded" := Bool(embedded),
        "url" := Str(url),
        "mimetype" := mimetype,
        "size" := if size.Some? then Num(size.value) else Null]
    }

    /** `type` as the JS value the predicates compare. */
    function TypeValue(): Value
    {
      if kind.Some? then Str(kind.value) else Null
    }

    /** `[file, solution, instruct].includes(this.type)` */
    predicate IsPdf()
    {
      Includes(PDF_TYPES, TypeValue())
    }

    /** `this.type == 'url' && !this.embedded`; with a string or null on the left, `==` is
      * string equality. */
    predicate IsExternalUrl()
    {
      kind == Some(TYPE_URL) && !embedded
    }

    predicate IsEmbeddedUrl()
    {
      kind == Some(TYPE_URL) && embedded
    }

    predicate IsEmbeddedSelectable()
    {
      kind == Some(TYPE_FILE) || (kind == Some(TYPE_URL) && embedded)
    }

    /** The same list and the same test as `isPdf`. */
    predicate HasFileToLoad()
    {
      Includes(PDF_TYPES, TypeValue())
    }

    function GetKey(): string
    {
      key
    }

    /** `new Resource(this.getData())` */
    function GetClone(): Resource
    {
      New(GetData())
    }
  }

  /** `if (type !== undefined && ALLOWED_TYPES.includes(type)) this.type = type`: only one of
    * the four type names is taken over. */
  function TypeFrom(ty: Value, kind: Option<string>): (r: Option<string>)
    ensures r == if ty in ALLOWED_TYPES then Some(ty.s) else kind
  {
    IncludesAllowed(ty);
    if !ty.Undefined? && Includes(ALLOWED_TYPES, ty) then Some(ToStr(ty)) else kind
  }

  const Default := Resource("", "", None, true, "", "", Str(""), None)

  function New(data: map<string, Value>): Resource
  {
    Default.SetData(data)
  }

  /** What a resource built from data can carry: an allowed type or none, a mimetype that is
    * neither undefined nor null, and a size `parseInt` produced. */
  predicate WellFormed(r: Resource)
  {
    (r.kind.Some? ==> Str(r.kind.value) in ALLOWED_TYPES) &&
    IsSet(r.mimetype) &&
    (r.size.Some? ==> IsWhole(r.size.value))
  }

  /** Whether JSON carries the persisted properties over unchanged. */
  predicate JsonSafeData(r: Resource)
  {
    JsonSafe(r.mimetype) && r.size != Some(NaN)
  }

  /** `ALLOWED_TYPES.includes(v)` holds exactly for the four type names. */
  lemma IncludesAllowed(v: Value)
    ensures Includes(ALLOWED_TYPES, v) <==> v in ALLOWED_TYPES
  {
    if Includes(ALLOWED_TYPES, v) {
      var i :| 0 <= i < |ALLOWED_TYPES| && SameValueZero(ALLOWED_TYPES[i], v);
      assert v == ALLOWED_TYPES[i];
    }
    if v in ALLOWED_TYPES {
      var i :| 0 <= i < |ALLOWED_TYPES| && ALLOWED_TYPES[i] == v;
      assert SameValueZero(ALLOWED_TYPES[i], v);
    }
  }

  /** A resource only ever gets one of the four allowed types, and setting data keeps it so. */
  lemma SetDataWellFormed(r: Resource, data: map<string, Value>)
    requires WellFormed(r)
    ensures WellFormed(r.SetData(data)) && WellFormed(New(data))
  {
    SetDataKeepsWellFormed(r, data);
    SetDataKeepsWellFormed(Default, data);
  }

  lemma SetDataKeepsWellFormed(r: Resource, data: map<string, Value>)
    requires WellFormed(r)
    ensures WellFormed(r.SetData(data))
  {
  }

  /** A source on a url resource is its url; an explicit url given with it wins. */
  lemma SourceAndUrl(r: Resource, source: string, url: string)
    ensures r.SetData(map["type" := Str(TYPE_URL), "source" := Str(source)]).url == source
    ensures r.SetData(map["type" := Str(TYPE_URL), "source" := Str(source), "url" := Str(url)]).url == url
  {
    assert Includes(ALLOWED_TYPES, Str(TYPE_URL)) by {
      assert SameValueZero(ALLOWED_TYPES[1], Str(TYPE_URL));
    }
  }

  /** A source on a resource of another type leaves the url alone. */
  lemma SourceOfFile(r: Resource, source: string)
    ensures r.SetData(map["type" := Str(TYPE_FILE), "source" := Str(source)]).url == r.url
  {
    assert Includes(ALLOWED_TYPES, Str(TYPE_FILE)) by {
      assert SameValueZero(ALLOWED_TYPES[0], Str(TYPE_FILE));
    }
  }

  /** `getData` has exactly the seven persisted properties, and a well-formed resource is
    * rebuilt from them, except for its source. */
  lemma {:induction false} GetDataReads(r: Resource)
    requires WellFormed(r)
    ensures r.GetData().Keys == {"key", "title", "type", "embedded", "url", "mimetype", "size"}
    ensures New(r.GetData()) == r.(source := "")
  {
    if r.size.Some? {
      ReadWhole(r.size.value);
    }
  }

  /** A clone has the same data and key as the original, and loses only the source. */
  lemma CloneKeepsData(r: Resource)
    requires WellFormed(r)
    ensures r.GetClone() == r.(source := "")
    ensures r.GetClone().GetData() == r.GetData() && r.GetClone().GetKey() == r.GetKey()
  {
    GetDataReads(r);
  }

  /** The storage item of a resource, `JSON.stringify(resource.getData())` read back. */
  function Image(r: Resource): Value
  {
    JsonCopy(Obj(r.GetData()))
  }

  /** Written as JSON and read back, a resource is rebuilt except for its source. */
  lemma PersistedRoundTrip(r: Resource)
    requires WellFormed(r) && JsonSafeData(r)
    ensures IsObjectLike(Image(r)) && New(Fields(Image(r))) == r.(source := "")
  {
    assert JsonSafe(Obj(r.GetData())) by {
      assert forall k :: k in r.GetData() ==> JsonSafe(r.GetData()[k]);
    }
    JsonCopyOfSafe(Obj(r.GetData()));
    GetDataReads(r);
  }

  /** `isPdf` and `hasFileToLoad` agree, and each holds exactly for files, solutions and
    * instructions. */
  lemma PdfTypes(r: Resource)
    ensures r.IsPdf() <==> r.HasFileToLoad()
    ensures r.IsPdf() <==> r.kind in {Some(TYPE_FILE), Some(TYPE_SOLUTION), Some(TYPE_INSTRUCTION)}
  {
    if r.IsPdf() {
      var i :| 0 <= i < |PDF_TYPES| && SameValueZero(PDF_TYPES[i], r.TypeValue());
      assert r.TypeValue() == PDF_TYPES[i];
    }
    if r.kind in {Some(TYPE_FILE), Some(TYPE_SOLUTION), Some(TYPE_INSTRUCTION)} {
      var i := if r.kind == Some(TYPE_FILE) then 0 else if r.kind == Some(TYPE_SOLUTION) then 1 else 2;
      assert SameValueZero(PDF_TYPES[i], r.TypeValue());
    }
  }

  /** A url resource is either external or embedded, never both; no other resource is either. */
  lemma UrlKinds(r: Resource)
    ensures !(r.IsExternalUrl() && r.IsEmbeddedUrl())
    ensures r.IsExternalUrl() || r.IsEmbeddedUrl() <==> r.kind == Some(TYPE_URL)
    ensures r.IsEmbeddedSelectable() <==> r.kind == Some(TYPE_FILE) || r.IsEmbeddedUrl()
  {
  }

  /** A PDF that can be shown embedded is exactly a file. */
  lemma SelectablePdf(r: Resource)
    ensures r.IsPdf() && r.IsEmbeddedSelectable() <==> r.kind == Some(TYPE_FILE)
  {
    PdfTypes(r);
  }
}
