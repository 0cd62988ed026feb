// The result the backend gives for a sending of data.

module SendingResultData {
  import opened Js

  datatype SendingResult = SendingResult(success: bool, message: string, details: string)
  {
    /** Only properties that are neither undefined nor null are applied: the flag as a
      * boolean, the texts as strings. */
    function SetData(data: map<string, Value>): (r: SendingResult)
      ensures r.success == if IsSet(Get(data, "success")) then Truthy(Get(data, "success")) else success
      ensures r.message == if IsSet(Get(data, "message")) then ToStr(Get(data, "message")) else message
      ensures r.details == if IsSet(Get(data, "details")) then ToStr(Get(data, "details")) else details
    {
      var s := Get(data, "success");
      var m := Get(data, "message");
      var d := Get(data, "details");
      SendingResult(
        if IsSet(s) then Truthy(s) else success,
        if IsSet(m) then ToStr(m) else message,
        if IsSet(d) then ToStr(d) else details)
    }

    function GetData(): map<string, Value>
    {
      map["success" := Bool(success), "message" := Str(message), "details" := Str(details)]
    }
  }

  /** A success with no message and no details. */
  const Default := SendingResult(true, "", "")

  function New(data: map<string, Value>): SendingResult
  {
    Default.SetData(data)
  }

  /** `new SendingResult()` is a success; a result is a failure only when data says so with a
    * falsy `success` that is neither undefined nor null. */
  lemma FailureOnlyWhenSaid(data: map<string, Value>)
    ensures New(map[]) == SendingResult(true, "", "")
    ensures !New(data).success <==> IsSet(Get(data, "success")) && !Truthy(Get(data, "success"))
  {
  }

  /** `getData` has exactly the three properties, and a result rebuilt from them is the same. */
  lemma DataRoundTrip(r: SendingResult)
    ensures r.GetData().Keys == {"success", "message", "details"}
    ensures New(r.GetData()) == r && New(r.GetData()).GetData() == r.GetData()
  {
  }
}
