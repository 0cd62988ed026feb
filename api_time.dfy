// The clock and payload helpers of the api store (src/store/api.js) that the
// other stores call: client time to server time, the offset taken from the
// backend's time header, and the plain data sent for a change marker.

module ApiTime {
  import opened Js
  import opened ChangeData

  /** `Math.floor(x)` */
  function NumberFloor(n: Number): (r: Number)
    ensures n.Finite? ==> r.Finite? && r.r <= n.r < r.r + 1.0 && IsIntegral(r.r)
    ensures n.NaN? ==> r.NaN?
  {
    if n.NaN? then NaN else Finite(n.r.Floor as real)
  }

  /** The server unix timestamp (s) of a client timestamp (ms); 0 stays 0. */
  function ServerTime(clientTime: Number, timeOffset: Number): (r: Number)
    ensures IsWhole(r)
    ensures NumberStrictEq(clientTime, Finite(0.0)) ==> r == Finite(0.0)
    ensures !NumberStrictEq(clientTime, Finite(0.0)) && clientTime.Finite? && timeOffset.Finite? ==>
      r.Finite? && IsIntegral(r.r) &&
      r.r * 1000.0 <= clientTime.r - timeOffset.r < (r.r + 1.0) * 1000.0
    ensures !NumberStrictEq(clientTime, Finite(0.0)) && (clientTime.NaN? || timeOffset.NaN?) ==> r.NaN?
  {
    if NumberStrictEq(clientTime, Finite(0.0)) then Finite(0.0)
    else if clientTime.NaN? || timeOffset.NaN? then NaN
    else NumberFloor(Finite((clientTime.r - timeOffset.r) / 1000.0))
  }

  /** The offset `setTimeOffset` derives from a server time header at client time `now`. */
  function OffsetFromHeader(header: Value, now: int): Number
  {
    match ToNumber(header)
    case NaN => NaN
    case Finite(h) => Finite(now as real - h * 1000.0)
  }

  /** With the offset taken from a header, the server time of that same instant is the header's time. */
  lemma ServerTimeOfHeaderInstant(h: int, now: int)
    requires now != 0
    ensures ServerTime(Finite(now as real), OffsetFromHeader(Int(h), now)) == Finite(h as real)
  {
    var off := now as real - (h as real) * 1000.0;
    assert (now as real - off) / 1000.0 == h as real;
    assert (h as real).Floor == h;
  }

  /** Server time is monotone in client time. */
  lemma ServerTimeMonotone(a: int, b: int, offset: int)
    requires 0 < a <= b
    ensures NumberLessEq(ServerTime(Finite(a as real), Finite(offset as real)), ServerTime(Finite(b as real), Finite(offset as real)))
  {
    var sa := ServerTime(Finite(a as real), Finite(offset as real));
    var sb := ServerTime(Finite(b as real), Finite(offset as real));
    assert sa.r * 1000.0 < (sb.r + 1.0) * 1000.0;
    assert sa.r < sb.r + 1.0;
    assert sa.r.Floor < sb.r.Floor + 1;
  }

  /** The plain data of a marker for the backend: its own data, the payload if truthy, and
    * the server time of its last change. */
  function ChangeDataToSend(c: Change, payload: Value, timeOffset: Number): (r: map<string, Value>)
    ensures "payload" in r <==> Truthy(payload)
    ensures "payload" in r ==> r["payload"] == payload
    ensures "server_time" in r && r["server_time"] == Num(ServerTime(c.last_change, timeOffset))
    ensures forall k :: k in c.GetData() ==> k in r && r[k] == c.GetData()[k]
    ensures r.Keys == c.GetData().Keys + {"server_time"} + (if Truthy(payload) then {"payload"} else {})
  {
    var data := c.GetData();
    var data := if Truthy(payload) then data["payload" := payload] else data;
    data["server_time" := Num(ServerTime(c.last_change, timeOffset))]
  }
}
