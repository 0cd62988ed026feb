// A change marker: the note that an object of some type and key was
// created, updated or deleted locally and still has to be sent.

module ChangeData {
  import opened Js

  const ACTION_SAVE := "save"
  const ACTION_DELETE := "delete"
  const ALLOWED_ACTIONS: seq<string> := [ACTION_SAVE, ACTION_DELETE]

  const TYPE_NOTES := "notes"
  const TYPE_PREFERENCES := "preferences"
  const ALLOWED_TYPES: seq<string> := [TYPE_NOTES, TYPE_PREFERENCES]

  /** `key` is a string for every marker built from data; the backend may answer a
    * rename with any JSON value (null for a deleted object), which is stored as is. */
  datatype Change = Change(action: Option<string>, dataType: Option<string>, key: Value, last_change: Number)
  {
    /** Copy the recognised properties of a plain object onto the marker. */
    function SetData(data: map<string, Value>): (r: Change)
      ensures var a := Get(data, "action");
        r.action == if a.Str? && a.s in ALLOWED_ACTIONS then Some(a.s) else action
      ensures var t := Get(data, "type");
        r.dataType == if t.Str? && t.s in ALLOWED_TYPES then Some(t.s) else dataType
      ensures r.action == action || (r.action.Some? && r.action.value in ALLOWED_ACTIONS)
      ensures r.dataType == dataType || (r.dataType.Some? && r.dataType.value in ALLOWED_TYPES)
      ensures r.key == if IsSet(Get(data, "key")) then Str(ToStr(Get(data, "key"))) else key
      ensures r.last_change == if IsSet(Get(data, "last_change")) then ParseInt(Get(data, "last_change")) else last_change
    {
      var a := Get(data, "action");
      var t := Get(data, "type");
      var k := Get(data, "key");
      var l := Get(data, "last_change");
      Change(
        if a.Str? && a.s in ALLOWED_ACTIONS then Some(a.s) else action,
        if t.Str? && t.s in ALLOWED_TYPES then Some(t.s) else dataType,
        if IsSet(k) then Str(ToStr(k)) else key,
        if IsSet(l) then ParseInt(l) else last_change)
    }

    /** The plain object written to storage and sent to the backend. */
    function GetData(): map<string, Value>
    {
      map[
        "action" := OptionalString(action),
        "type" := OptionalString(dataType),
        "key" := key,
        "last_change" := Num(last_change)]
    }

    predicate IsValid()
    {
      dataType.Some? && dataType.value in ALLOWED_TYPES &&
      action.Some? && action.value in ALLOWED_ACTIONS &&
      !LooseEq(key, Str(""))
    }

    /** The property name under which the marker is filed in its type's map. */
    function PropertyKey(): string
    {
      ToStr(key)
    }
  }

  function OptionalString(o: Option<string>): Value
  {
    if o.Some? then Str(o.value) else Null
  }

  const Default := Change(None, None, Str(""), Finite(0.0))

  /** `new Change(data)` at client time `now`: a marker still without a time gets `now`. */
  function New(data: map<string, Value>, now: int): (r: Change)
    ensures var parsed := Default.SetData(data).last_change;
      if NumberStrictEq(parsed, Finite(0.0)) then r.last_change == Finite(now as real) else r.last_change == parsed
    ensures r.action == Default.SetData(data).action && r.key == Default.SetData(data).key
    ensures WellFormed(r)
  {
    var c := Default.SetData(data);
    if NumberStrictEq(c.last_change, Finite(0.0)) then c.(last_change := Finite(now as real)) else c
  }

  /** What a marker has when it was built from data: a string key and recognised action and type. */
  predicate WellFormed(c: Change)
  {
    (c.action.None? || c.action.value in ALLOWED_ACTIONS) &&
    (c.dataType.None? || c.dataType.value in ALLOWED_TYPES) &&
    c.key.Str? && IsWhole(c.last_change)
  }

  /** A marker built from data is valid exactly when the data names an allowed type and
    * action and a key whose string form is not empty. */
  lemma NewIsValid(data: map<string, Value>, now: int)
    ensures New(data, now).IsValid() <==>
      (Get(data, "type").Str? && Get(data, "type").s in ALLOWED_TYPES &&
       Get(data, "action").Str? && Get(data, "action").s in ALLOWED_ACTIONS &&
       IsSet(Get(data, "key")) && ToStr(Get(data, "key")) != "")
  {
  }

  /** Rebuilding a marker from its own plain data gives the same marker, unless its time
    * is 0 (which the constructor replaces by the clock). */
  lemma RoundTrip(c: Change, now: int)
    requires WellFormed(c)
    requires !NumberStrictEq(c.last_change, Finite(0.0))
    ensures New(c.GetData(), now) == c
  {
    if c.last_change.Finite? {
      var i := c.last_change.r.Floor;
      ParseIntOfInt(i);
      assert Num(c.last_change) == Int(i);
    }
  }

  /** A marker written to storage (through JSON) and read back is the same marker when
    * it carries a real time. */
  lemma PersistedRoundTrip(c: Change, now: int)
    requires WellFormed(c) && c.last_change.Finite? && c.last_change.r != 0.0
    ensures New(Fields(JsonCopy(Obj(c.GetData()))), now) == c
  {
    JsonCopyOfSafe(Obj(c.GetData()));
    RoundTrip(c, now);
  }

  /** JSON writes NaN as null, so a marker whose time is NaN reads back stamped with the clock. */
  lemma PersistedNaNRestamped(c: Change, now: int)
    requires WellFormed(c) && c.last_change.NaN?
    ensures New(Fields(JsonCopy(Obj(c.GetData()))), now) == c.(last_change := Finite(now as real))
  {
    var m := c.GetData();
    var d := Fields(JsonCopy(Obj(m)));
    assert d == map k | k in m && !m[k].Undefined? :: JsonCopy(m[k]);
    assert d["last_change"] == JsonCopy(Num(NaN)) == Null;
    assert d["key"] == JsonCopy(c.key) == c.key;
    assert d["action"] == JsonCopy(m["action"]) == m["action"];
    assert d["type"] == JsonCopy(m["type"]) == m["type"];
  }
}
