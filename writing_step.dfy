// A writing step: one saving of the essay, either the full content or a
// delta to the content saved before.

module WritingStepData {
  import opened Js

  /** `timestamp` (server time) and `distance` (Levenshtein distance to the content before)
    * are numbers `parseInt` produced. */
  datatype WritingStep = WritingStep(is_delta: bool, timestamp: Number, content: string,
                                     hash_before: string, hash_after: string, distance: Number)
  {
    /** Only properties that are neither undefined nor null are applied: the flag as a
      * boolean, the numbers parsed as integers, the texts as strings. */
    function SetData(data: map<string, Value>): (r: WritingStep)
      ensures r.is_delta == if IsSet(Get(data, "is_delta")) then Truthy(Get(data, "is_delta")) else is_delta
      ensures r.timestamp == if IsSet(Get(data, "timestamp")) then ParseInt(Get(data, "timestamp")) else timestamp
      ensures r.content == if IsSet(Get(data, "content")) then ToStr(Get(data, "content")) else content
      ensures r.hash_before == if IsSet(Get(data, "hash_before")) then ToStr(Get(data, "hash_before")) else hash_before
      ensures r.hash_after == if IsSet(Get(data, "hash_after")) then ToStr(Get(data, "hash_after")) else hash_after
      ensures r.distance == if IsSet(Get(data, "distance")) then ParseInt(Get(data, "distance")) else distance
    {
      var delta := Get(data, "is_delta");
      var time := Get(data, "timestamp");
      var c := Get(data, "content");
      var before := Get(data, "hash_before");
      var after := Get(data, "hash_after");
      var d := Get(data, "distance");
      WritingStep(
        if IsSet(delta) then Truthy(delta) else is_delta,
        if IsSet(time) then ParseInt(time) else timestamp,
        if IsSet(c) then ToStr(c) else content,
        if IsSet(before) then ToStr(before) else hash_before,
        if IsSet(after) then ToStr(after) else hash_after,
        if IsSet(d) then ParseInt(d) else distance)
    }

    function GetData(): map<string, Value>
    {
      map[
        "is_delta" := Bool(is_delta),
        "timestamp" := Num(timestamp),
        "content" := Str(content),
        "hash_before" := Str(hash_before),
        "hash_after" := Str(hash_after),
        "distance" := Num(distance)]
    }
  }

  /** A delta step at time 0 with empty texts and distance 0. */
  const Default := WritingStep(true, Finite(0.0), "", "", "", Finite(0.0))

  function New(data: map<string, Value>): WritingStep
  {
    Default.SetData(data)
  }

  /** The numbers a step built from data can carry: whole or NaN. */
  predicate WellFormed(s: WritingStep)
  {
    IsWhole(s.timestamp) && IsWhole(s.distance)
  }

  lemma NewWellFormed(data: map<string, Value>)
    ensures WellFormed(New(data))
  {
  }

  /** `new WritingStep()` has the defaults. */
  lemma Defaults()
    ensures New(map[]) == WritingStep(true, Finite(0.0), "", "", "", Finite(0.0))
  {
  }

  /** `getData` has exactly the six properties. */
  lemma GetDataFields(s: WritingStep)
    ensures s.GetData().Keys == {"is_delta", "timestamp", "content", "hash_before", "hash_after", "distance"}
  {
  }

  /** A step rebuilt from its data is the same step, so it has the same data. */
  lemma {:induction false} DataRoundTrip(s: WritingStep)
    requires WellFormed(s)
    ensures New(s.GetData()) == s && New(s.GetData()).GetData() == s.GetData()
  {
    ReadWhole(s.timestamp);
    ReadWhole(s.distance);
  }
}
