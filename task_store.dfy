// The task store: title, writer, instructions and the writing end of the
// task, kept in the "writer-task" storage, and the remaining writing time
// derived from the server clock.

module TaskStore {
  import opened Js
  import opened ApiTime

  const TASK_ITEM := "task"

  /** `Math.max(0, writing_end - serverTime)` while the task has a writing end, else null. */
  function RemainingTime(writingEnd: Value, serverTime: Number): (r: Value)
    ensures r.Null? <==> !Truthy(writingEnd)
    ensures r.Num? && r.n.Finite? ==> r.n.r >= 0.0
  {
    if !Truthy(writingEnd) then Null
    else
      match (ToNumber(writingEnd), serverTime)
      case (Finite(e), Finite(s)) => Num(Finite(if e - s < 0.0 then 0.0 else e - s))
      case _ => Num(NaN)
  }

  /** The remaining time is exactly 0 when the task has a writing end and the server clock has
    * reached it; NaN on either side never counts as reached. */
  lemma EndReachedIff(writingEnd: Value, serverTime: Number)
    ensures StrictEq(RemainingTime(writingEnd, serverTime), Int(0)) <==>
      Truthy(writingEnd) && NumberLessEq(ToNumber(writingEnd), serverTime)
  {
  }

  /** `writing_excluded > 0`, with the operand converted to a number. */
  predicate ExcludedBy(writingExcluded: Value)
  {
    NumberLess(Finite(0.0), ToNumber(writingExcluded))
  }

  class TaskStore {
    var title: Value
    var writerName: Value
    var instructions: Value
    /** Writing end (s, server time). */
    var writingEnd: Value
    /** Time (s, server time) from which the writer is excluded. */
    var writingExcluded: Value
    /** Remaining writing time (s); not saved. */
    var remainingTime: Value
    /** The "writer-task" storage. */
    var storage: map<string, Value>

    constructor(storage: map<string, Value>)
      ensures title == Null && writerName == Null && instructions == Null
      ensures writingEnd == Null && writingExcluded == Null && remainingTime == Null
      ensures this.storage == storage
    {
      title, writerName, instructions := Null, Null, Null;
      writingEnd, writingExcluded, remainingTime := Null, Null, Null;
      this.storage := storage;
    }

    predicate HasInstructions()
      reads this
    {
      Truthy(instructions)
    }

    /** There is a writing end exactly when a remaining time is computed for it. */
    predicate HasWritingEnd()
      reads this
      ensures forall t: Number :: HasWritingEnd() <==> !RemainingTime(writingEnd, t).Null?
    {
      Truthy(writingEnd)
    }

    /** `remaining_time === 0` */
    predicate WritingEndReached()
      reads this
    {
      StrictEq(remainingTime, Int(0))
    }

    predicate IsExcluded()
      reads this
    {
      ExcludedBy(writingExcluded)
    }

    /** The record `loadFromUpdate` writes to the storage. */
    function Record(): (r: map<string, Value>)
      reads this
      ensures r.Keys == {"title", "instructions", "writer_name", "writing_end", "writing_excluded"}
    {
      map["title" := title, "instructions" := instructions, "writer_name" := writerName,
        "writing_end" := writingEnd, "writing_excluded" := writingExcluded]
    }

    /** Take the five task properties from the data; reading a property of null or
      * undefined throws before anything is assigned. */
    method SetData(data: Value) returns (ok: bool)
      modifies this
      ensures ok <==> IsSet(data)
      ensures remainingTime == old(remainingTime) && storage == old(storage)
      ensures !ok ==>
        title == old(title) && writerName == old(writerName) && instructions == old(instructions) &&
        writingEnd == old(writingEnd) && writingExcluded == old(writingExcluded)
      ensures ok ==>
        title == Get(Fields(data), "title") && instructions == Get(Fields(data), "instructions") &&
        writerName == Get(Fields(data), "writer_name") && writingEnd == Get(Fields(data), "writing_end") &&
        writingExcluded == Get(Fields(data), "writing_excluded")
    {
      if !IsSet(data) {
        return false;
      }
      var f := Fields(data);
      title := Get(f, "title");
      instructions := Get(f, "instructions");
      writerName := Get(f, "writer_name");
      writingEnd := Get(f, "writing_end");
      writingExcluded := Get(f, "writing_excluded");
      ok := true;
    }

    /** Recompute the remaining time at client time `now`; `review` says whether the api
      * store's review flag is to be set (it is never cleared here). */
    method UpdateRemainingTime(now: int, timeOffset: Number) returns (review: bool)
      modifies this
      ensures remainingTime == RemainingTime(writingEnd, ServerTime(Finite(now as real), timeOffset))
      ensures review <==> WritingEndReached() || IsExcluded()
      ensures title == old(title) && writerName == old(writerName) && instructions == old(instructions)
      ensures writingEnd == old(writingEnd) && writingExcluded == old(writingExcluded) && storage == old(storage)
    {
      if Truthy(writingEnd) {
        var server := ServerTime(Finite(now as real), timeOffset);
        remainingTime := match (ToNumber(writingEnd), server)
          case (Finite(e), Finite(s)) => Num(Finite(if e - s < 0.0 then 0.0 else e - s))
          case _ => Num(NaN);
      } else {
        remainingTime := Null;
      }
      review := WritingEndReached() || IsExcluded();
    }

    method ClearStorage()
      modifies this
      ensures storage == map[]
      ensures title == old(title) && writerName == old(writerName) && instructions == old(instructions)
      ensures writingEnd == old(writingEnd) && writingExcluded == old(writingExcluded) && remainingTime == old(remainingTime)
    {
      storage := map[];
    }

    /** Read the stored task (a missing item reads as null, which leaves the state as it is).
      * Like the other two loads, it ends by asking the api store for a one-second interval
      * that updates the remaining time; `intervalAction` says whether the api store defines
      * that `setInterval` action. As written it does not, so the load throws a TypeError
      * (`threw`) after its work is done. */
    method LoadFromStorage(now: int, timeOffset: Number, intervalAction: bool) returns (review: bool, threw: bool)
      modifies this
      ensures threw <==> !intervalAction
      ensures storage == old(storage)
      ensures var data := Get(storage, TASK_ITEM);
        if IsSet(data) then
          title == Get(Fields(data), "title") && instructions == Get(Fields(data), "instructions") &&
          writerName == Get(Fields(data), "writer_name") && writingEnd == Get(Fields(data), "writing_end") &&
          writingExcluded == Get(Fields(data), "writing_excluded")
        else
          title == old(title) && writerName == old(writerName) && instructions == old(instructions) &&
          writingEnd == old(writingEnd) && writingExcluded == old(writingExcluded)
      ensures remainingTime == RemainingTime(writingEnd, ServerTime(Finite(now as real), timeOffset))
      ensures review <==> WritingEndReached() || IsExcluded()
    {
      var _ := SetData(Get(storage, TASK_ITEM));
      review := UpdateRemainingTime(now, timeOffset);
      threw := !intervalAction;
    }

    /** Store the task data as given, then take it over; it throws at its end as
      * `LoadFromStorage` does. */
    method LoadFromData(data: Value, now: int, timeOffset: Number, intervalAction: bool) returns (review: bool, threw: bool)
      modifies this
      ensures threw <==> !intervalAction
      ensures storage == old(storage)[TASK_ITEM := Persisted(data)]
      ensures IsSet(data) ==>
        title == Get(Fields(data), "title") && instructions == Get(Fields(data), "instructions") &&
        writerName == Get(Fields(data), "writer_name") && writingEnd == Get(Fields(data), "writing_end") &&
        writingExcluded == Get(Fields(data), "writing_excluded")
      ensures !IsSet(data) ==>
        title == old(title) && writerName == old(writerName) && instructions == old(instructions) &&
        writingEnd == old(writingEnd) && writingExcluded == old(writingExcluded)
      ensures remainingTime == RemainingTime(writingEnd, ServerTime(Finite(now as real), timeOffset))
      ensures review <==> WritingEndReached() || IsExcluded()
    {
      storage := storage[TASK_ITEM := Persisted(data)];
      var _ := SetData(data);
      review := UpdateRemainingTime(now, timeOffset);
      threw := !intervalAction;
    }

    /** Take over a new writing end and exclusion and store the task record with the other
      * three properties as they are; it throws at its end as `LoadFromStorage` does. */
    method LoadFromUpdate(data: Value, now: int, timeOffset: Number, intervalAction: bool) returns (review: bool, threw: bool)
      modifies this
      ensures threw <==> !intervalAction
      ensures title == old(title) && writerName == old(writerName) && instructions == old(instructions)
      ensures IsSet(data) ==>
        writingEnd == Get(Fields(data), "writing_end") && writingExcluded == Get(Fields(data), "writing_excluded") &&
        storage == old(storage)[TASK_ITEM := Obj(Record())]
      ensures !IsSet(data) ==>
        writingEnd == old(writingEnd) && writingExcluded == old(writingExcluded) && storage == old(storage)
      ensures remainingTime == RemainingTime(writingEnd, ServerTime(Finite(now as real), timeOffset))
      ensures review <==> WritingEndReached() || IsExcluded()
    {
      if IsSet(data) {
        writingEnd := Get(Fields(data), "writing_end");
        writingExcluded := Get(Fields(data), "writing_excluded");
        storage := storage[TASK_ITEM := Obj(Record())];
      }
      review := UpdateRemainingTime(now, timeOffset);
      threw := !intervalAction;
    }
  }

  /** The record stored by `loadFromUpdate`, read back by `loadFromStorage`, gives the same
    * five properties. */
  lemma RecordReloads(t: TaskStore)
    ensures IsSet(Obj(t.Record()))
    ensures var f := Fields(Obj(t.Record()));
      Get(f, "title") == t.title && Get(f, "instructions") == t.instructions &&
      Get(f, "writer_name") == t.writerName && Get(f, "writing_end") == t.writingEnd &&
      Get(f, "writing_excluded") == t.writingExcluded
  {
  }
}
