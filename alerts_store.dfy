// The alerts store: messages sent by the backend, newest first, kept in the
// "writer-alerts" storage under their keys plus an index of the keys.

module AlertsStore {
  import opened Js

  /** The storage item holding the list of alert keys (as JSON). */
  const KEYS_ITEM := "alertKeys"

  /** `alert.key` of an alert that is not null or undefined. */
  function KeyOf(alert: Value): Value
  {
    Get(Fields(alert), "key")
  }

  /** The key of the last alert among `data` whose key is not in `known`, if any. */
  function LastUnseen(known: seq<Value>, data: seq<Value>): Option<Value>
  {
    if |data| == 0 then None
    else if !Includes(known, KeyOf(data[|data| - 1])) then Some(KeyOf(data[|data| - 1]))
    else LastUnseen(known, data[..|data| - 1])
  }

  /** Every alert after position `i` has a known key. */
  predicate KnownAfter(known: seq<Value>, data: seq<Value>, i: nat)
  {
    forall j :: i < j < |data| ==> Includes(known, KeyOf(data[j]))
  }

  /** `LastUnseen` gives none exactly when every key is known, and otherwise the key of an alert
    * that is not known and after which every alert is known. */
  lemma {:induction false} LastUnseenIsLast(known: seq<Value>, data: seq<Value>)
    ensures LastUnseen(known, data).None? <==> forall i :: 0 <= i < |data| ==> Includes(known, KeyOf(data[i]))
    ensures LastUnseen(known, data).Some? ==>
      exists i :: 0 <= i < |data| && LastUnseen(known, data).value == KeyOf(data[i]) && !Includes(known, KeyOf(data[i])) &&
                  KnownAfter(known, data, i)
    decreases |data|
  {
    if |data| > 0 {
      var n := |data| - 1;
      if Includes(known, KeyOf(data[n])) {
        var init := data[..n];
        LastUnseenIsLast(known, init);
        assert forall i :: 0 <= i < n ==> init[i] == data[i];
        if LastUnseen(known, init).Some? {
          var i :| 0 <= i < n && LastUnseen(known, init).value == KeyOf(init[i]) && !Includes(known, KeyOf(init[i])) &&
                   KnownAfter(known, init, i);
          forall j | i < j < |data|
            ensures Includes(known, KeyOf(data[j]))
          {
            if j < n {
              assert init[j] == data[j];
            }
          }
        }
      } else {
        assert KnownAfter(known, data, n);
      }
    }
  }

  /** A list without null or undefined alerts is visited to its end. */
  lemma {:induction false} FirstUnsetOfSet(data: seq<Value>)
    requires forall i :: 0 <= i < |data| ==> IsSet(data[i])
    ensures FirstUnset(data) == |data|
  {
    if |data| > 0 {
      FirstUnsetOfSet(data[1..]);
    }
  }

  /** A string sent as the list is visited to its end, one character after the other, and
    * every character has an undefined key. */
  lemma StringAlertsHaveNoKey(s: string)
    ensures FirstUnset(Iterated(Str(s)).value) == |s|
    ensures forall i :: 0 <= i < |s| ==> KeyOf(Iterated(Str(s)).value[i]) == Undefined
  {
    FirstUnsetOfSet(Iterated(Str(s)).value);
  }

  /** The storage once each alert of `data` is written under the string form of its key. */
  function Written(storage: map<string, Value>, data: seq<Value>): map<string, Value>
  {
    if |data| == 0 then storage
    else Written(storage, data[..|data| - 1])[ToStr(KeyOf(data[|data| - 1])) := data[|data| - 1]]
  }

  /** The position of the first null or undefined alert, where reading its key throws. */
  function FirstUnset(data: seq<Value>): (n: nat)
    ensures n <= |data|
    ensures forall i :: 0 <= i < n ==> IsSet(data[i])
    ensures n < |data| ==> !IsSet(data[n])
  {
    if |data| == 0 then 0
    else if !IsSet(data[0]) then 0
    else 1 + FirstUnset(data[1..])
  }

  /** `storage.getItem(key)`: the key is used in its string form, a missing item is null. */
  function StoredAlert(storage: map<string, Value>, key: Value): Value
  {
    if ToStr(key) in storage then storage[ToStr(key)] else Null
  }

  /** No alert before position `n` has a key loosely equal to `key`. */
  predicate NoMatchBefore(alerts: seq<Value>, key: Value, n: nat)
    requires n <= |alerts|
  {
    forall j :: 0 <= j < n ==> !LooseEq(KeyOf(alerts[j]), key)
  }

  /** The alert at position `i` is the first whose key loosely equals `key`, and the search
    * reaches it before any null or undefined alert. */
  predicate FirstMatchAt(alerts: seq<Value>, key: Value, i: nat)
  {
    i < FirstUnset(alerts) && LooseEq(KeyOf(alerts[i]), key) && NoMatchBefore(alerts, key, i)
  }

  /** `alerts.find(element => element.key == key)`: the first alert whose key loosely equals
    * `key`, undefined if there is none, and None when the search meets a null or undefined
    * alert first (reading its key throws). */
  function Find(alerts: seq<Value>, key: Value): (r: Option<Value>)
    ensures r.None? <==> FirstUnset(alerts) < |alerts| && NoMatchBefore(alerts, key, FirstUnset(alerts))
    ensures r == Some(Undefined) <==> FirstUnset(alerts) == |alerts| && NoMatchBefore(alerts, key, |alerts|)
  {
    if |alerts| == 0 then Some(Undefined)
    else if !IsSet(alerts[0]) then None
    else if LooseEq(KeyOf(alerts[0]), key) then Some(alerts[0])
    else
      var r := Find(alerts[1..], key);
      NoMatchShift(alerts, key, FirstUnset(alerts[1..]));
      NoMatchShift(alerts, key, |alerts| - 1);
      r
  }

  /** Past a first alert that does not match, the search goes on in the rest of the list. */
  lemma NoMatchShift(alerts: seq<Value>, key: Value, n: nat)
    requires 0 < |alerts| && n < |alerts| && !LooseEq(KeyOf(alerts[0]), key)
    ensures NoMatchBefore(alerts, key, n + 1) <==> NoMatchBefore(alerts[1..], key, n)
  {
    if NoMatchBefore(alerts[1..], key, n) {
      forall j | 0 <= j < n + 1
        ensures !LooseEq(KeyOf(alerts[j]), key)
      {
        if j > 0 {
          assert alerts[j] == alerts[1..][j - 1];
        }
      }
    }
    if NoMatchBefore(alerts, key, n + 1) {
      forall j | 0 <= j < n
        ensures !LooseEq(KeyOf(alerts[1..][j]), key)
      {
        assert alerts[1..][j] == alerts[j + 1];
      }
    }
  }

  /** The search finds the first alert with a loosely equal key. */
  lemma {:induction false} FindFirstMatch(alerts: seq<Value>, key: Value, i: nat)
    requires FirstMatchAt(alerts, key, i)
    ensures Find(alerts, key) == Some(alerts[i])
    decreases i
  {
    if i > 0 {
      assert !LooseEq(KeyOf(alerts[0]), key);
      assert IsSet(alerts[0]);
      assert alerts[1..][i - 1] == alerts[i];
      assert FirstUnset(alerts) == 1 + FirstUnset(alerts[1..]);
      forall j | 0 <= j < i - 1
        ensures !LooseEq(KeyOf(alerts[1..][j]), key)
      {
        assert alerts[1..][j] == alerts[j + 1];
      }
      FindFirstMatch(alerts[1..], key, i - 1);
    }
  }

  /** `FindFirstMatch` for every position. */
  lemma FindFirstMatches(alerts: seq<Value>, key: Value)
    ensures forall i: nat :: FirstMatchAt(alerts, key, i) ==> Find(alerts, key) == Some(alerts[i])
  {
    forall i: nat | FirstMatchAt(alerts, key, i)
      ensures Find(alerts, key) == Some(alerts[i])
    {
      FindFirstMatch(alerts, key, i);
    }
  }

  class AlertsStore {
    /** The alert keys in the order the backend sent them. */
    var keys: seq<Value>
    /** The alerts, newest first. */
    var alerts: seq<Value>
    var activeKey: Value
    var showAllAlerts: bool
    /** The "writer-alerts" storage; the key index as JSON reads it back. */
    var storage: map<string, Value>

    constructor(storage: map<string, Value>)
      ensures keys == [] && alerts == [] && activeKey == Str("") && !showAllAlerts
      ensures this.storage == storage
    {
      keys, alerts, activeKey, showAllAlerts := [], [], Str(""), false;
      this.storage := storage;
    }

    function CountAlerts(): nat
      reads this
    {
      |alerts|
    }

    predicate HasAlerts()
      reads this
    {
      |alerts| > 0
    }

    /** `activeKey != ''` */
    predicate HasActiveAlert()
      reads this
    {
      !LooseEq(activeKey, Str(""))
    }

    /** The message of the first alert with the active key, '' when no alert has it; None when
      * the search throws. */
    function ActiveMessage(): (r: Option<Value>)
      reads this
      ensures r.None? <==> Find(alerts, activeKey).None?
      ensures forall i: nat :: FirstMatchAt(alerts, activeKey, i) ==>
        r == Some(if Truthy(alerts[i]) then Get(Fields(alerts[i]), "message") else Str(""))
      ensures Find(alerts, activeKey) == Some(Undefined) ==> r == Some(Str(""))
    {
      FindFirstMatches(alerts, activeKey);
      match Find(alerts, activeKey)
      case None => None
      case Some(a) => Some(if Truthy(a) then Get(Fields(a), "message") else Str(""))
    }

    /** `getAlert(key)`: the first alert with a loosely equal key, undefined when there is
      * none; None when the search throws. */
    function GetAlert(key: Value): (r: Option<Value>)
      reads this
      ensures r.None? <==> FirstUnset(alerts) < |alerts| && NoMatchBefore(alerts, key, FirstUnset(alerts))
      ensures r == Some(Undefined) <==> FirstUnset(alerts) == |alerts| && NoMatchBefore(alerts, key, |alerts|)
      ensures forall i: nat :: FirstMatchAt(alerts, key, i) ==> r == Some(alerts[i])
    {
      FindFirstMatches(alerts, key);
      Find(alerts, key)
    }

    method ShowAlerts()
      modifies this
      ensures showAllAlerts
      ensures keys == old(keys) && alerts == old(alerts) && activeKey == old(activeKey) && storage == old(storage)
    {
      showAllAlerts := true;
    }

    /** Close the active alert and the list. */
    method HideAlert()
      modifies this
      ensures activeKey == Str("") && !showAllAlerts && !HasActiveAlert()
      ensures keys == old(keys) && alerts == old(alerts) && storage == old(storage)
    {
      activeKey := Str("");
      showAllAlerts := false;
    }

    method ClearStorage()
      modifies this
      ensures storage == map[]
      ensures keys == old(keys) && alerts == old(alerts) && activeKey == old(activeKey) && showAllAlerts == old(showAllAlerts)
    {
      storage := map[];
    }

    /** Read the key index, if stored, and the alerts it names, newest first. The index is
      * taken over when it is an array; the alerts are emptied first, so an index that is not
      * iterable leaves none, and a string index names the items of its characters. */
    method LoadFromStorage()
      modifies this
      ensures storage == old(storage) && activeKey == old(activeKey) && showAllAlerts == old(showAllAlerts)
      ensures keys == if KEYS_ITEM in storage && storage[KEYS_ITEM].Arr? then storage[KEYS_ITEM].elems else old(keys)
      ensures var names := if KEYS_ITEM in storage then Iterated(storage[KEYS_ITEM]) else Some(old(keys));
        (names.None? ==> alerts == []) &&
        (names.Some? ==>
          |alerts| == |names.value| &&
          forall i :: 0 <= i < |names.value| ==> alerts[i] == StoredAlert(storage, names.value[|names.value| - 1 - i]))
    {
      var names := Some(keys);
      if KEYS_ITEM in storage {
        names := Iterated(storage[KEYS_ITEM]);
        if storage[KEYS_ITEM].Arr? {
          keys := storage[KEYS_ITEM].elems;
        }
      }
      alerts := [];
      if names.None? {
        return;
      }
      var loaded := [];
      for i := 0 to |names.value|
        invariant |loaded| == i
        invariant forall j :: 0 <= j < i ==> loaded[j] == StoredAlert(storage, names.value[i - 1 - j])
      {
        loaded := [StoredAlert(storage, names.value[i])] + loaded;
      }
      alerts := loaded;
    }

    /** Replace the alerts by the backend's list: the storage is cleared and each alert written
      * under its key; with `showNew` the last alert whose key was not known becomes active.
      * A string is visited character by character, each with an undefined key. A list that is
      * not iterable throws before the first alert; an alert that is null or undefined throws
      * when its key is read. The writes done until then stay, and on a throw the lists are not
      * replaced. */
    method LoadFromData(data: Value, showNew: bool)
      modifies this
      ensures showAllAlerts == old(showAllAlerts)
      ensures Iterated(data).None? ==>
        storage == map[] && keys == old(keys) && alerts == old(alerts) && activeKey == old(activeKey)
      ensures Iterated(data).Some? ==>
        var items := Iterated(data).value;
        var n := FirstUnset(items);
        var p := Run(old(keys), old(activeKey), showNew, items[..n]);
        activeKey == p.active &&
        (n < |items| ==> storage == p.storage && keys == old(keys) && alerts == old(alerts)) &&
        (n == |items| ==> keys == p.keys && alerts == p.alerts && storage == p.storage[KEYS_ITEM := JsonCopy(Arr(p.keys))])
    {
      storage := map[];
      var items := Iterated(data);
      if items.None? {
        return;
      }
      var p, n := Collect(keys, activeKey, showNew, items.value);
      if n < |items.value| {
        activeKey, storage := p.active, p.storage;
      } else {
        keys, alerts, activeKey, storage := p.keys, p.alerts, p.active, p.storage[KEYS_ITEM := JsonCopy(Arr(p.keys))];
      }
    }
  }

  /** What `loadFromData` has built after some of the backend's alerts. */
  datatype Loading = Loading(keys: seq<Value>, alerts: seq<Value>, storage: map<string, Value>, active: Value)

  /** `loadFromData`'s loop over `data`, with the keys known before and the active key. */
  function Run(known: seq<Value>, active: Value, showNew: bool, data: seq<Value>): Loading
    decreases |data|
  {
    if |data| == 0 then Loading([], [], map[], active)
    else
      var p := Run(known, active, showNew, data[..|data| - 1]);
      var alert := data[|data| - 1];
      var key := KeyOf(alert);
      Loading(p.keys + [key], [alert] + p.alerts, p.storage[ToStr(key) := alert],
        if showNew && !Includes(known, key) then key else p.active)
  }

  /** The loop of `loadFromData` over the backend's alerts, up to the first null or undefined
    * one, where reading its key throws. */
  method Collect(known: seq<Value>, active: Value, showNew: bool, elems: seq<Value>) returns (p: Loading, n: nat)
    ensures n == FirstUnset(elems)
    ensures p == Run(known, active, showNew, elems[..n])
  {
    var keys, alerts, storage, current := [], [], map[], active;
    var i := 0;
    while i < |elems|
      invariant 0 <= i <= FirstUnset(elems)
      invariant Loading(keys, alerts, storage, current) == Run(known, active, showNew, elems[..i])
    {
      var alert := elems[i];
      if !IsSet(alert) {
        return Loading(keys, alerts, storage, current), i;
      }
      var key := KeyOf(alert);
      assert elems[..i + 1][..i] == elems[..i];
      if showNew && !Includes(known, key) {
        current := key;
      }
      alerts := [alert] + alerts;
      keys := keys + [key];
      storage := storage[ToStr(key) := alert];
      i := i + 1;
    }
    assert elems[..i] == elems;
    return Loading(keys, alerts, storage, current), i;
  }

  lemma {:induction false} RunKeys(known: seq<Value>, active: Value, showNew: bool, data: seq<Value>)
    ensures var p := Run(known, active, showNew, data);
      |p.keys| == |data| && forall i :: 0 <= i < |data| ==> p.keys[i] == KeyOf(data[i])
    decreases |data|
  {
    if |data| > 0 {
      RunKeys(known, active, showNew, data[..|data| - 1]);
    }
  }

  lemma {:induction false} RunAlerts(known: seq<Value>, active: Value, showNew: bool, data: seq<Value>)
    ensures var p := Run(known, active, showNew, data);
      |p.alerts| == |data| && forall i :: 0 <= i < |data| ==> p.alerts[i] == data[|data| - 1 - i]
    decreases |data|
  {
    if |data| > 0 {
      RunAlerts(known, active, showNew, data[..|data| - 1]);
    }
  }

  lemma {:induction false} RunStorage(known: seq<Value>, active: Value, showNew: bool, data: seq<Value>)
    ensures Run(known, active, showNew, data).storage == Written(map[], data)
    decreases |data|
  {
    if |data| > 0 {
      RunStorage(known, active, showNew, data[..|data| - 1]);
    }
  }

  lemma {:induction false} RunActive(known: seq<Value>, active: Value, showNew: bool, data: seq<Value>)
    ensures Run(known, active, showNew, data).active ==
      if showNew && LastUnseen(known, data).Some? then LastUnseen(known, data).value else active
    decreases |data|
  {
    if |data| > 0 {
      RunActive(known, active, showNew, data[..|data| - 1]);
    }
  }

  /** The loop keeps the keys in data order and the alerts in reverse order, writes every alert
    * under its key, and leaves active the last alert whose key was not known (with `showNew`). */
  lemma RunFacts(known: seq<Value>, active: Value, showNew: bool, data: seq<Value>)
    ensures var p := Run(known, active, showNew, data);
      |p.keys| == |p.alerts| == |data| &&
      (forall i :: 0 <= i < |data| ==> p.keys[i] == KeyOf(data[i]) && p.alerts[i] == data[|data| - 1 - i]) &&
      p.storage == Written(map[], data) &&
      p.active == (if showNew && LastUnseen(known, data).Some? then LastUnseen(known, data).value else active)
  {
    RunKeys(known, active, showNew, data);
    RunAlerts(known, active, showNew, data);
    RunStorage(known, active, showNew, data);
    RunActive(known, active, showNew, data);
  }

  /** Each alert written under its key is read back under it, provided the keys have
    * distinct string forms. */
  lemma {:induction false} WrittenReadsBack(data: seq<Value>)
    requires forall i, j :: 0 <= i < j < |data| ==> ToStr(KeyOf(data[i])) != ToStr(KeyOf(data[j]))
    ensures forall i :: 0 <= i < |data| ==> StoredAlert(Written(map[], data), KeyOf(data[i])) == data[i]
    decreases |data|
  {
    if |data| > 0 {
      var front := data[..|data| - 1];
      WrittenReadsBack(front);
      forall i | 0 <= i < |data|
        ensures StoredAlert(Written(map[], data), KeyOf(data[i])) == data[i]
      {
        if i < |data| - 1 {
          assert front[i] == data[i];
        }
      }
    }
  }

  /** The keys of a list of alerts, in order. */
  function KeysOf(data: seq<Value>): (r: seq<Value>)
    ensures |r| == |data| && forall i :: 0 <= i < |data| ==> r[i] == KeyOf(data[i])
  {
    seq(|data|, i requires 0 <= i < |data| => KeyOf(data[i]))
  }

  /** What `loadFromData` stores is what `loadFromStorage` reads back: the index lists the
    * keys in order and every key leads to its alert, provided the keys have distinct string
    * forms other than the index's name and JSON carries them over unchanged. */
  lemma StoredAlertsReload(data: seq<Value>)
    requires forall i :: 0 <= i < |data| ==> JsonSafe(KeyOf(data[i])) && ToStr(KeyOf(data[i])) != KEYS_ITEM
    requires forall i, j :: 0 <= i < j < |data| ==> ToStr(KeyOf(data[i])) != ToStr(KeyOf(data[j]))
    ensures var storage := Written(map[], data)[KEYS_ITEM := JsonCopy(Arr(KeysOf(data)))];
      storage[KEYS_ITEM] == Arr(KeysOf(data)) &&
      forall i :: 0 <= i < |data| ==> StoredAlert(storage, KeysOf(data)[i]) == data[i]
  {
    IndexReadsBack(data);
    ItemsReadBack(data);
  }

  lemma IndexReadsBack(data: seq<Value>)
    requires forall i :: 0 <= i < |data| ==> JsonSafe(KeyOf(data[i]))
    ensures JsonCopy(Arr(KeysOf(data))) == Arr(KeysOf(data))
  {
    JsonCopyOfSafe(Arr(KeysOf(data)));
  }

  lemma ItemsReadBack(data: seq<Value>)
    requires forall i :: 0 <= i < |data| ==> ToStr(KeyOf(data[i])) != KEYS_ITEM
    requires forall i, j :: 0 <= i < j < |data| ==> ToStr(KeyOf(data[i])) != ToStr(KeyOf(data[j]))
    ensures forall i :: 0 <= i < |data| ==>
      StoredAlert(Written(map[], data)[KEYS_ITEM := JsonCopy(Arr(KeysOf(data)))], KeysOf(data)[i]) == data[i]
  {
    WrittenReadsBack(data);
    forall i | 0 <= i < |data|
      ensures StoredAlert(Written(map[], data)[KEYS_ITEM := JsonCopy(Arr(KeysOf(data)))], KeysOf(data)[i]) == data[i]
    {
      PastIndex(Written(map[], data), JsonCopy(Arr(KeysOf(data))), KeysOf(data)[i]);
    }
  }

  /** Writing the index does not hide an alert whose key is not the index's name. */
  lemma PastIndex(written: map<string, Value>, index: Value, key: Value)
    requires ToStr(key) != KEYS_ITEM
    ensures StoredAlert(written[KEYS_ITEM := index], key) == StoredAlert(written, key)
  {
  }
}
