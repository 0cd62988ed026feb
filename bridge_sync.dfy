// The per-entry action queue of the PDF annotation bridge (`sync` in
// dist/annotate-pdf/iframe-bridge.js).
//
// Every `sync(entry, name, action)` call is numbered by the order of the
// calls; its promise, its `layerRendered` listener and its `returnPending`
// closure are named by that number. Action bodies are not run: running one
// appends its call number to `log`, and the settling of its result is the
// separate event `Settle`. Whether `pdfEditLayer(entry.page)` returns a layer
// is an input.

module BridgeSync {
  import opened Js

  /** A queued action: the `sync` call it came from and its name. */
  datatype Pending = Pending(call: nat, name: string)

  /** A slot of `entry.pending`; `None` is the `null` placeholder of the running head. */
  type Slot = Option<Pending>

  /** `pending?.name === name` */
  predicate Named(s: Slot, name: string)
  {
    s.Some? && s.value.name == name
  }

  /** The calls of the queued actions. */
  function Ids(q: seq<Slot>): set<nat>
  {
    if |q| == 0 then {} else (if q[0].Some? then {q[0].value.call} else {}) + Ids(q[1..])
  }

  /** The names of the queued actions. */
  function Names(q: seq<Slot>): set<string>
  {
    if |q| == 0 then {} else (if q[0].Some? then {q[0].value.name} else {}) + Names(q[1..])
  }

  /** No call and no name is queued twice. */
  predicate Unique(q: seq<Slot>)
  {
    |q| == 0 ||
    ((q[0].Some? ==> q[0].value.call !in Ids(q[1..]) && q[0].value.name !in Names(q[1..])) && Unique(q[1..]))
  }

  /** Only the head may be the placeholder. */
  predicate PlaceholderAtHead(q: seq<Slot>)
  {
    forall i :: 1 <= i < |q| ==> q[i].Some?
  }

  /** The queue without the actions of the given name: the filter of `enqueue`. */
  function Kept(q: seq<Slot>, name: string): (r: seq<Slot>)
    ensures |r| <= |q|
    ensures forall s :: s in r <==> s in q && !Named(s, name)
    ensures |q| > 0 && q[0].None? ==> |r| > 0 && r[0].None?
  {
    if |q| == 0 then []
    else (if Named(q[0], name) then [] else [q[0]]) + Kept(q[1..], name)
  }

  /** The calls of the actions of the given name: those `enqueue` kills. */
  function Killed(q: seq<Slot>, name: string): (r: set<nat>)
    ensures r <= Ids(q)
  {
    if |q| == 0 then {}
    else (if Named(q[0], name) then {q[0].value.call} else {}) + Killed(q[1..], name)
  }

  /** What `enqueue` leaves in the queue: the others, then the new action. */
  function Enqueued(q: seq<Slot>, call: nat, name: string): seq<Slot>
  {
    Kept(q, name) + [Some(Pending(call, name))]
  }

  lemma {:induction false} IdsAppend(q: seq<Slot>, s: Slot)
    ensures Ids(q + [s]) == Ids(q) + (if s.Some? then {s.value.call} else {})
    ensures Names(q + [s]) == Names(q) + (if s.Some? then {s.value.name} else {})
  {
    if |q| > 0 {
      assert (q + [s])[1..] == q[1..] + [s];
      IdsAppend(q[1..], s);
    }
  }

  lemma {:induction false} UniqueAppend(q: seq<Slot>, p: Pending)
    requires Unique(q) && p.call !in Ids(q) && p.name !in Names(q)
    ensures Unique(q + [Some(p)])
  {
    if |q| == 0 {
      assert [Some(p)][1..] == [];
    } else {
      assert (q + [Some(p)])[1..] == q[1..] + [Some(p)];
      IdsAppend(q[1..], Some(p));
      UniqueAppend(q[1..], p);
    }
  }

  /** Coalescing drops exactly the killed calls. */
  lemma {:induction false} KeptIds(q: seq<Slot>, name: string)
    requires Unique(q)
    ensures Ids(Kept(q, name)) == Ids(q) - Killed(q, name)
  {
    if |q| > 0 {
      KeptIds(q[1..], name);
      var rest := Kept(q[1..], name);
      if !Named(q[0], name) {
        assert ([q[0]] + rest)[1..] == rest;
      } else {
        assert Kept(q, name) == rest;
      }
    }
  }

  /** Coalescing drops exactly the given name. */
  lemma {:induction false} KeptNames(q: seq<Slot>, name: string)
    requires Unique(q)
    ensures Names(Kept(q, name)) == Names(q) - {name}
  {
    if |q| > 0 {
      KeptNames(q[1..], name);
      var rest := Kept(q[1..], name);
      if !Named(q[0], name) {
        assert ([q[0]] + rest)[1..] == rest;
      } else {
        assert Kept(q, name) == rest;
      }
    }
  }

  /** Coalescing keeps the queue unique. */
  lemma {:induction false} KeptUnique(q: seq<Slot>, name: string)
    requires Unique(q)
    ensures Unique(Kept(q, name))
  {
    if |q| > 0 {
      KeptUnique(q[1..], name);
      var rest := Kept(q[1..], name);
      if !Named(q[0], name) {
        KeptSubset(q[1..], name);
        assert ([q[0]] + rest)[1..] == rest;
      } else {
        assert Kept(q, name) == rest;
      }
    }
  }

  lemma {:induction false} KeptSubset(q: seq<Slot>, name: string)
    ensures Ids(Kept(q, name)) <= Ids(q) && Names(Kept(q, name)) <= Names(q)
  {
    if |q| > 0 {
      KeptSubset(q[1..], name);
      var rest := Kept(q[1..], name);
      if !Named(q[0], name) {
        assert ([q[0]] + rest)[1..] == rest;
      } else {
        assert Kept(q, name) == rest;
      }
    }
  }

  /** Among unique actions at most one has a given name. */
  lemma {:induction false} KilledAtMostOne(q: seq<Slot>, name: string)
    requires Unique(q)
    ensures |Killed(q, name)| <= 1
    ensures name !in Names(q) ==> Killed(q, name) == {}
  {
    if |q| > 0 {
      KilledAtMostOne(q[1..], name);
      if Named(q[0], name) {
        KilledNone(q[1..], name);
      }
    }
  }

  lemma {:induction false} KilledNone(q: seq<Slot>, name: string)
    requires name !in Names(q)
    ensures Killed(q, name) == {}
  {
    if |q| > 0 {
      KilledNone(q[1..], name);
    }
  }

  /** After `enqueue`, the queue is unique, the new action is the only one of its name, and the
    * running placeholder is still at the head. */
  lemma EnqueuedFacts(q: seq<Slot>, call: nat, name: string)
    requires Unique(q) && PlaceholderAtHead(q) && call !in Ids(q)
    ensures Unique(Enqueued(q, call, name)) && PlaceholderAtHead(Enqueued(q, call, name))
    ensures Ids(Enqueued(q, call, name)) == Ids(q) - Killed(q, name) + {call}
    ensures Names(Enqueued(q, call, name)) == Names(q) + {name}
    ensures |q| > 0 && q[0].None? ==> Enqueued(q, call, name)[0].None?
    ensures |q| > 0 && q[0].Some? ==> Enqueued(q, call, name)[0].Some?
  {
    KeptIds(q, name);
    KeptNames(q, name);
    KeptUnique(q, name);
    IdsAppend(Kept(q, name), Some(Pending(call, name)));
    UniqueAppend(Kept(q, name), Pending(call, name));
    var k := Kept(q, name);
    forall i | 1 <= i < |k|
      ensures k[i].Some?
    {
      KeptPlaceholder(q, name, i);
    }
    if |q| > 0 && q[0].Some? && |k| > 0 {
      assert k[0] in q;
    }
  }

  lemma {:induction false} KeptPlaceholder(q: seq<Slot>, name: string, i: nat)
    requires PlaceholderAtHead(q) && 1 <= i < |Kept(q, name)|
    ensures Kept(q, name)[i].Some?
  {
    var rest := Kept(q[1..], name);
    if Named(q[0], name) {
      assert Kept(q, name) == rest;
      assert rest[i] in q[1..];
    } else {
      assert Kept(q, name)[i] == rest[i - 1];
      assert rest[i - 1] in q[1..];
    }
  }

  lemma IdsSplit(q: seq<Slot>)
    requires |q| > 0
    ensures Ids(q) == (if q[0].Some? then {q[0].value.call} else {}) + Ids(q[1..])
    ensures Ids([None] + q[1..]) == Ids(q[1..]) && Names([None] + q[1..]) == Names(q[1..])
  {
    assert ([None] + q[1..])[1..] == q[1..];
  }

  /** An entry of the bridge, as far as `sync` uses it. */
  class Entry {
    const page: int
    /** `entry.pending` */
    var pending: seq<Slot>
    /** The calls whose `layerRendered` listener is subscribed. */
    var listeners: set<nat>
    /** The call whose `returnPending` closure `entry.returnPending` holds, if any. */
    var returnPending: Option<nat>
    /** The number of `sync` calls so far. */
    var calls: nat
    /** The calls whose promise has been resolved. */
    var resolved: set<nat>
    /** The calls whose action body has run, in order. */
    var log: seq<nat>
    /** The calls whose action ran and whose result has not settled yet. */
    var running: seq<nat>

    constructor(page: int)
      ensures this.page == page && pending == [] && listeners == {} && returnPending == None
      ensures calls == 0 && resolved == {} && log == [] && running == []
    {
      this.page := page;
      pending, listeners, returnPending := [], {}, None;
      calls, resolved, log, running := 0, {}, [], [];
    }

    /** What every operation keeps, even the faulty `returnPending`. */
    predicate Wf()
      reads this
    {
      Unique(pending) && PlaceholderAtHead(pending) &&
      (forall c :: c in Ids(pending) ==> c < calls) &&
      (forall c :: c in resolved ==> c < calls) &&
      Ids(pending) !! resolved &&
      (forall c :: c in listeners ==> c < calls) &&
      (returnPending.Some? ==> returnPending.value < calls)
    }

    /** The queue works as documented: at most one action runs, exactly while the placeholder
      * is at the head; a subscribed listener waits for a queued head; and every call is still
      * queued or resolved. */
    predicate Serial()
      reads this
    {
      |running| <= 1 &&
      (|running| == 1 <==> |pending| > 0 && pending[0].None?) &&
      (listeners != {} ==> |pending| > 0 && pending[0].Some?) &&
      listeners <= (if returnPending.Some? then {returnPending.value} else {}) &&
      (forall c :: 0 <= c < calls ==> c in resolved || c in Ids(pending))
    }

    /** `enqueue()`: kill the queued actions of the same name (resolve them without running
      * them) and append the new one. `kill` unsubscribes the `layerRendered` of the call
      * making it, which is never the subscribed one, so the listeners stay as they are. */
    method Enqueue(call: nat, name: string)
      requires Wf() && call == calls
      modifies this
      ensures pending == Enqueued(old(pending), call, name)
      ensures resolved == old(resolved) + Killed(old(pending), name)
      ensures calls == old(calls) + 1
      ensures listeners == old(listeners) && returnPending == old(returnPending)
      ensures log == old(log) && running == old(running)
      ensures Wf()
      ensures Killed(old(pending), name) !! Ids(pending)
    {
      EnqueuedFacts(pending, call, name);
      resolved := resolved + Killed(pending, name);
      pending := Enqueued(pending, call, name);
      calls := calls + 1;
    }

    /** `dequeue(layer)`: run the head and leave the placeholder in its place. A placeholder at
      * the head makes `head.run` throw. */
    method Dequeue() returns (threw: bool)
      requires Wf()
      modifies this
      ensures threw <==> |old(pending)| > 0 && old(pending)[0].None?
      ensures |old(pending)| > 0 && old(pending)[0].Some? ==>
        (var head := old(pending)[0].value.call;
         pending == [None] + old(pending)[1..] && log == old(log) + [head] &&
         running == old(running) + [head] && resolved == old(resolved) + {head})
      ensures (|old(pending)| == 0 || threw) ==>
        pending == old(pending) && log == old(log) && running == old(running) && resolved == old(resolved)
      ensures calls == old(calls) && listeners == old(listeners) && returnPending == old(returnPending)
      ensures Wf()
    {
      if |pending| == 0 {
        return false;
      }
      if pending[0].None? {
        return true;
      }
      var head := pending[0].value.call;
      IdsSplit(pending);
      pending := [None] + pending[1..];
      log, running, resolved := log + [head], running + [head], resolved + {head};
      threw := false;
    }

    /** `sync(entry, name, action)`, returning the number that names its promise. */
    method Sync(name: string, layerAvailable: bool) returns (call: nat)
      requires Wf()
      modifies this
      ensures call == old(calls) && calls == call + 1
      ensures old(|pending|) == 0 && layerAvailable ==>
        pending == [None] && log == old(log) + [call] && running == old(running) + [call] &&
        resolved == old(resolved) + {call} && listeners == old(listeners) && returnPending == old(returnPending)
      ensures old(|pending|) == 0 && !layerAvailable ==>
        pending == [Some(Pending(call, name))] && listeners == old(listeners) + {call} &&
        returnPending == Some(call) && log == old(log) && running == old(running) && resolved == old(resolved)
      ensures old(|pending|) > 0 ==>
        pending == Enqueued(old(pending), call, name) && resolved == old(resolved) + Killed(old(pending), name) &&
        listeners == old(listeners) && returnPending == old(returnPending) && log == old(log) && running == old(running)
      ensures Wf()
      ensures old(Serial()) ==> Serial()
    {
      call := calls;
      ghost var wasSerial := Serial();
      if |pending| == 0 {
        Enqueue(call, name);
        assert pending == [Some(Pending(call, name))];
        if layerAvailable {
          var _ := Dequeue();
        } else {
          listeners := listeners + {call};
          returnPending := Some(call);
        }
        assert wasSerial ==> Serial() by {
          if wasSerial {
            SerialAfterFirst(call, name);
          }
        }
      } else {
        ghost var q := pending;
        ghost var r := resolved;
        EnqueuedFacts(q, call, name);
        Enqueue(call, name);
        assert wasSerial ==> Serial() by {
          if wasSerial {
            SerialAfterEnqueue(q, r, call, name);
          }
        }
      }
    }

    lemma SerialAfterFirst(call: nat, name: string)
      requires Wf() && call + 1 == calls
      requires pending == [None] || pending == [Some(Pending(call, name))]
      requires pending == [None] ==> running == [call] && call in resolved && listeners == {}
      requires pending[0].Some? ==> running == [] && call !in resolved && listeners == {call} && returnPending == Some(call)
      requires forall c :: 0 <= c < call ==> c in resolved
      ensures Serial()
    {
      IdsSplit(pending);
      assert Ids(pending[1..]) == {};
    }

    lemma SerialAfterEnqueue(q: seq<Slot>, r: set<nat>, call: nat, name: string)
      requires |q| > 0 && PlaceholderAtHead(q) && Unique(q) && call !in Ids(q)
      requires |running| <= 1 && (|running| == 1 <==> q[0].None?) && (listeners != {} ==> q[0].Some?)
      requires listeners <= (if returnPending.Some? then {returnPending.value} else {})
      requires forall c :: 0 <= c < call ==> c in r || c in Ids(q)
      requires pending == Enqueued(q, call, name) && resolved == r + Killed(q, name) && calls == call + 1
      ensures Serial()
    {
      EnqueuedFacts(q, call, name);
    }

    /** The result of the running action `running[k]` settles: drop the head slot and run the
      * next action. */
    method Settle(k: nat)
      requires Wf() && k < |running|
      modifies this
      ensures var rest := if |old(pending)| == 0 then [] else old(pending)[1..];
        if |rest| > 0 then
          pending == [None] + rest[1..] && log == old(log) + [rest[0].value.call] &&
          running == old(running[..k] + running[k + 1..]) + [rest[0].value.call] &&
          resolved == old(resolved) + {rest[0].value.call}
        else
          pending == [] && log == old(log) && running == old(running[..k] + running[k + 1..]) &&
          resolved == old(resolved)
      ensures calls == old(calls) && listeners == old(listeners) && returnPending == old(returnPending)
      ensures Wf()
      ensures old(Serial()) ==> Serial()
    {
      ghost var wasSerial := Serial();
      ghost var q := pending;
      running := running[..k] + running[k + 1..];
      if |pending| > 0 {
        IdsSplit(pending);
        pending := pending[1..];
      }
      var threw := Dequeue();
      assert wasSerial ==> Serial() by {
        if wasSerial {
          assert q[0].None?;
          if |q| > 1 {
            IdsSplit(q[1..]);
          }
        }
      }
    }

    /** The `layerRendered` listener of call `owner` receives a rendered page: on the entry's
      * page it runs the head and unsubscribes, unless `dequeue` throws first. */
    method LayerRendered(owner: nat, pageNumber: int) returns (threw: bool)
      requires Wf() && owner in listeners
      modifies this
      ensures pageNumber - 1 != page ==>
        !threw && pending == old(pending) && listeners == old(listeners) && log == old(log) &&
        running == old(running) && resolved == old(resolved)
      ensures pageNumber - 1 == page ==> (threw <==> |old(pending)| > 0 && old(pending)[0].None?)
      ensures pageNumber - 1 == page && |old(pending)| > 0 && old(pending)[0].Some? ==>
        (var head := old(pending)[0].value.call;
         pending == [None] + old(pending)[1..] && log == old(log) + [head] &&
         running == old(running) + [head] && resolved == old(resolved) + {head})
      ensures pageNumber - 1 == page ==> listeners == if threw then old(listeners) else old(listeners) - {owner}
      ensures calls == old(calls) && returnPending == old(returnPending)
      ensures Wf()
      ensures old(Serial()) ==> Serial()
    {
      threw := false;
      if pageNumber - 1 == page {
        threw := Dequeue();
        if !threw {
          listeners := listeners - {owner};
        }
      }
    }

    /** `entry.returnPending()` as written: resolve every queued action without running it,
      * empty the queue, forget the closure and unsubscribe its listener. The running
      * action's placeholder goes too. */
    method ReturnPending()
      requires Wf()
      modifies this
      ensures returnPending.None?
      ensures old(returnPending).Some? ==>
        pending == [] && resolved == old(resolved) + Ids(old(pending)) &&
        listeners == old(listeners) - {old(returnPending).value}
      ensures old(returnPending).None? ==>
        pending == old(pending) && resolved == old(resolved) && listeners == old(listeners)
      ensures calls == old(calls) && log == old(log) && running == old(running)
      ensures Wf()
      ensures old(Serial()) && old(|running|) == 0 ==> Serial()
    {
      if returnPending.Some? {
        resolved := resolved + Ids(pending);
        listeners := listeners - {returnPending.value};
        pending := [];
        returnPending := None;
      }
    }

    /** `returnPending` as evidently intended: the queued actions are resolved without running,
      * but the placeholder of a running action stays, so the chain stays intact. */
    method ReturnPendingCorrected()
      requires Wf()
      modifies this
      ensures returnPending.None?
      ensures old(returnPending).Some? ==>
        pending == (if |old(pending)| > 0 && old(pending)[0].None? then [None] else []) &&
        resolved == old(resolved) + Ids(old(pending)) &&
        listeners == old(listeners) - {old(returnPending).value}
      ensures old(returnPending).None? ==>
        pending == old(pending) && resolved == old(resolved) && listeners == old(listeners)
      ensures calls == old(calls) && log == old(log) && running == old(running)
      ensures Wf()
      ensures old(Serial()) ==> Serial()
    {
      if returnPending.Some? {
        ghost var wasSerial := Serial();
        resolved := resolved + Ids(pending);
        listeners := listeners - {returnPending.value};
        pending := if |pending| > 0 && pending[0].None? then [None] else [];
        returnPending := None;
        assert wasSerial ==> Serial() by {
          if wasSerial && pending == [None] {
            IdsSplit(pending);
          }
        }
      }
    }
  }

  /** The faulty `returnPending` loses an action: an action is run after its layer is
    * rendered, the entry's pending actions are returned while it runs, and a new action is
    * queued. When the first result settles, its `slice(1)` drops the new action: it is
    * neither run nor resolved, and nothing is left to run it. */
  method LostAction() returns (e: Entry, first: nat, second: nat)
    ensures first in e.log && second !in e.log && second !in e.resolved
    ensures e.pending == [] && e.running == [] && e.calls == 2
    ensures !e.Serial()
  {
    e := new Entry(0);
    first := e.Sync("create", false);
    var _ := e.LayerRendered(first, 1);
    e.ReturnPending();
    second := e.Sync("update", false);
    e.Settle(0);
  }

  /** With the corrected `returnPending`, the same events run the new action once the first
    * result settles. */
  method KeptAction() returns (e: Entry, first: nat, second: nat)
    ensures e.log == [first, second] && second in e.resolved
    ensures e.Serial()
  {
    e := new Entry(0);
    first := e.Sync("create", false);
    var _ := e.LayerRendered(first, 1);
    e.ReturnPendingCorrected();
    second := e.Sync("update", false);
    e.Settle(0);
  }
}
