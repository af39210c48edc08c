/**
 * The per-key fan-out stage (`FanPipe`): every inbound message goes to the
 * handler of its key, created on first use; each cycle moves at most one
 * inbound message and collects at most one outbound message from every
 * handler, in the order the handlers were created.
 *
 * Handlers are values here: their identity is the index of their creation
 * and their state is their two queues.  The thread that drives each handler
 * is not part of this model; the handler's own work shows up only as what
 * its output queue holds.
 */
module Routing {
  import opened Messages

  datatype Handler = Handler(id: nat, inQueue: seq<Msg>, outQueue: seq<Msg>)

  /** `raise "BAD KEY: …"`: the message's key is nil or empty. */
  datatype RouteError = BadKey(m: Msg)

  /** The registry: keys in creation order (the Hash's key order) and their handlers. */
  datatype Registry = Registry(order: seq<string>, handlers: map<string, Handler>)

  predicate ValidKey(k: Option<string>) {
    k.Some? && k.value != ""
  }

  /** Keys are distinct and non-empty, the map holds exactly the listed keys, and handler `i` was created `i`-th. */
  ghost predicate WellFormed(reg: Registry) {
    && (forall i, j :: 0 <= i < j < |reg.order| ==> reg.order[i] != reg.order[j])
    && (forall k :: k in reg.handlers <==> k in reg.order)
    && "" !in reg.handlers
    && (forall i :: 0 <= i < |reg.order| ==> reg.order[i] in reg.handlers && reg.handlers[reg.order[i]].id == i)
  }

  /** `handler_for_message` on a valid key: the key's handler, created with empty queues if the key is new. */
  function Register(reg: Registry, key: string): Registry {
    if key in reg.handlers then reg
    else Registry(reg.order + [key], reg.handlers[key := Handler(|reg.order|, [], [])])
  }

  /**
   * Registering keeps the registry well formed and never disturbs an
   * existing handler; a new key gets the next id and empty queues and goes
   * last; registering twice is registering once.
   */
  lemma RegisterSpec(reg: Registry, key: string)
    requires WellFormed(reg) && key != ""
    ensures var r := Register(reg, key);
      && WellFormed(r)
      && key in r.handlers
      && (key in reg.handlers ==> r == reg)
      && (key !in reg.handlers ==>
            r.order == reg.order + [key] && r.handlers[key] == Handler(|reg.order|, [], []))
      && (forall k :: k in reg.handlers ==> k in r.handlers && r.handlers[k] == reg.handlers[k])
      && Register(r, key) == r
  {
    var r := Register(reg, key);
    if key !in reg.handlers {
      forall i | 0 <= i < |r.order| ensures r.order[i] in r.handlers && r.handlers[r.order[i]].id == i {
        if i < |reg.order| {
          assert r.order[i] == reg.order[i];
        }
      }
    }
  }

  /** `push_to_thread`: append the message to the key's handler's input queue. */
  function Push(reg: Registry, key: string, m: Msg): Registry
    requires key in reg.handlers
  {
    var h := reg.handlers[key];
    reg.(handlers := reg.handlers[key := h.(inQueue := h.inQueue + [m])])
  }

  /** `cycle_in_messages` for a message with a valid key. */
  function Routed(reg: Registry, key: string, m: Msg): Registry {
    var r := Register(reg, key);
    assert key in r.handlers;
    Push(r, key, m)
  }

  /**
   * Routing a run of messages one `cycle_in_messages` at a time: the first
   * message with an invalid key stops the run (it is lost and the stage
   * raises).
   */
  function Dispatch(reg: Registry, getKey: Msg -> Option<string>, msgs: seq<Msg>): Result<Registry, RouteError>
    decreases |msgs|
  {
    if msgs == [] then Success(reg)
    else if !ValidKey(getKey(msgs[0])) then Failure(BadKey(msgs[0]))
    else Dispatch(Routed(reg, getKey(msgs[0]).value, msgs[0]), getKey, msgs[1..])
  }

  /** The messages of `msgs` whose key is `k`, in order. */
  function WithKey(msgs: seq<Msg>, getKey: Msg -> Option<string>, k: string): seq<Msg> {
    if msgs == [] then []
    else (if getKey(msgs[0]) == Some(k) then [msgs[0]] else []) + WithKey(msgs[1..], getKey, k)
  }

  /** A key either belongs to the registry or is the key of one of `msgs`. */
  ghost predicate KnownAfter(reg: Registry, getKey: Msg -> Option<string>, msgs: seq<Msg>, k: string) {
    k in reg.handlers || exists i :: 0 <= i < |msgs| && getKey(msgs[i]) == Some(k)
  }

  /** Routing one message with a valid key adds `m` to its key's handler and changes no other input queue. */
  lemma RoutedQueues(reg: Registry, key: string, m: Msg, k: string)
    requires WellFormed(reg) && key != ""
    ensures var r := Routed(reg, key, m);
      && WellFormed(r)
      && (k in r.handlers <==> k in reg.handlers || k == key)
      && (k in reg.handlers ==> r.handlers[k].id == reg.handlers[k].id)
      && (k in r.handlers ==>
            r.handlers[k].inQueue == (if k in reg.handlers then reg.handlers[k].inQueue else []) + (if k == key then [m] else []))
  {
    RegisterSpec(reg, key);
  }

  lemma TailValidKeys(getKey: Msg -> Option<string>, msgs: seq<Msg>)
    requires msgs != [] && forall i :: 0 <= i < |msgs| ==> ValidKey(getKey(msgs[i]))
    ensures ValidKey(getKey(msgs[0])) && forall i :: 0 <= i < |msgs[1..]| ==> ValidKey(getKey(msgs[1..][i]))
  {
    forall i | 0 <= i < |msgs[1..]| ensures ValidKey(getKey(msgs[1..][i])) {
      assert msgs[1..][i] == msgs[i + 1];
    }
  }

  /**
   * Routing messages whose keys are all valid succeeds, keeps the registry
   * well formed, and leaves the ids of existing handlers alone.
   */
  lemma {:induction false} DispatchSpec(reg: Registry, getKey: Msg -> Option<string>, msgs: seq<Msg>)
    requires WellFormed(reg)
    requires forall i :: 0 <= i < |msgs| ==> ValidKey(getKey(msgs[i]))
    ensures Dispatch(reg, getKey, msgs).Success?
    ensures var r := Dispatch(reg, getKey, msgs).value;
      && WellFormed(r)
      && (forall k :: k in reg.handlers ==> k in r.handlers && r.handlers[k].id == reg.handlers[k].id)
    decreases |msgs|
  {
    if msgs != [] {
      TailValidKeys(getKey, msgs);
      var key := getKey(msgs[0]).value;
      var reg1 := Routed(reg, key, msgs[0]);
      forall k | k in reg.handlers ensures k in reg1.handlers && reg1.handlers[k].id == reg.handlers[k].id {
        RoutedQueues(reg, key, msgs[0], k);
      }
      RoutedQueues(reg, key, msgs[0], key);
      DispatchSpec(reg1, getKey, msgs[1..]);
    }
  }

  /** After routing messages with valid keys, there is a handler for exactly the keys already known and the keys seen. */
  lemma {:induction false} DispatchKeys(reg: Registry, getKey: Msg -> Option<string>, msgs: seq<Msg>, k: string)
    requires WellFormed(reg)
    requires forall i :: 0 <= i < |msgs| ==> ValidKey(getKey(msgs[i]))
    ensures Dispatch(reg, getKey, msgs).Success?
    ensures k in Dispatch(reg, getKey, msgs).value.handlers <==> KnownAfter(reg, getKey, msgs, k)
    decreases |msgs|
  {
    DispatchSpec(reg, getKey, msgs);
    if msgs != [] {
      TailValidKeys(getKey, msgs);
      var m, tail := msgs[0], msgs[1..];
      var key := getKey(m).value;
      var reg1 := Routed(reg, key, m);
      RoutedQueues(reg, key, m, k);
      DispatchKeys(reg1, getKey, tail, k);
      if KnownAfter(reg1, getKey, tail, k) && k !in reg1.handlers {
        var i :| 0 <= i < |tail| && getKey(tail[i]) == Some(k);
        assert msgs[i + 1] == tail[i];
      }
      if KnownAfter(reg, getKey, msgs, k) && k !in reg.handlers && k != key {
        var i :| 0 <= i < |msgs| && getKey(msgs[i]) == Some(k);
        assert getKey(m) == Some(key);
        assert i > 0 && tail[i - 1] == msgs[i];
      }
    }
  }

  /**
   * After routing messages with valid keys, each handler's input queue has
   * gained exactly the messages of its key, in arrival order.
   */
  lemma {:induction false} DispatchQueues(reg: Registry, getKey: Msg -> Option<string>, msgs: seq<Msg>, k: string)
    requires WellFormed(reg)
    requires forall i :: 0 <= i < |msgs| ==> ValidKey(getKey(msgs[i]))
    requires KnownAfter(reg, getKey, msgs, k)
    ensures Dispatch(reg, getKey, msgs).Success?
    ensures k in Dispatch(reg, getKey, msgs).value.handlers
    ensures Dispatch(reg, getKey, msgs).value.handlers[k].inQueue
         == (if k in reg.handlers then reg.handlers[k].inQueue else []) + WithKey(msgs, getKey, k)
    decreases |msgs|
  {
    DispatchSpec(reg, getKey, msgs);
    if msgs != [] {
      TailValidKeys(getKey, msgs);
      var m, tail := msgs[0], msgs[1..];
      var key := getKey(m).value;
      var reg1 := Routed(reg, key, m);
      RoutedQueues(reg, key, m, k);
      DispatchKeys(reg, getKey, msgs, k);
      DispatchKeys(reg1, getKey, tail, k);
      DispatchQueues(reg1, getKey, tail, k);
      var base := if k in reg.handlers then reg.handlers[k].inQueue else [];
      var base1 := if k in reg1.handlers then reg1.handlers[k].inQueue else [];
      var extra := if k == key then [m] else [];
      var w := WithKey(tail, getKey, k);
      assert base1 == base + extra;
      assert WithKey(msgs, getKey, k) == extra + w by {
        assert getKey(m) == Some(key);
      }
      assert Dispatch(reg, getKey, msgs).value.handlers[k].inQueue == base1 + w;
      ConcatAssoc(base, extra, w);
    }
  }

  /** The distinct keys of a run of messages. */
  ghost function KeysOf(getKey: Msg -> Option<string>, msgs: seq<Msg>): set<string> {
    set i | 0 <= i < |msgs| && getKey(msgs[i]).Some? :: getKey(msgs[i]).value
  }

  lemma {:induction false} DistinctCount(s: seq<string>)
    requires forall i, j :: 0 <= i < j < |s| ==> s[i] != s[j]
    ensures |set x | x in s| == |s|
  {
    if s != [] {
      var init := s[..|s| - 1];
      DistinctCount(init);
      assert (set x | x in s) == (set x | x in init) + {s[|s| - 1]};
    }
  }

  /**
   * Routing messages with valid keys through a fresh stage leaves one
   * handler per distinct key: repeated keys never add a handler.
   */
  lemma DispatchCount(getKey: Msg -> Option<string>, msgs: seq<Msg>)
    requires forall i :: 0 <= i < |msgs| ==> ValidKey(getKey(msgs[i]))
    ensures Dispatch(Registry([], map[]), getKey, msgs).Success?
    ensures var r := Dispatch(Registry([], map[]), getKey, msgs).value;
      r.handlers.Keys == KeysOf(getKey, msgs) && |r.order| == |KeysOf(getKey, msgs)|
  {
    var reg := Registry([], map[]);
    DispatchSpec(reg, getKey, msgs);
    var r := Dispatch(reg, getKey, msgs).value;
    forall k ensures k in r.handlers <==> k in KeysOf(getKey, msgs) {
      DispatchKeys(reg, getKey, msgs, k);
    }
    DistinctCount(r.order);
    assert (set x | x in r.order) == r.handlers.Keys;
  }

  /** The oldest message of a handler's output queue, if any. */
  function Head(h: Handler): seq<Msg> {
    if h.outQueue == [] then [] else [h.outQueue[0]]
  }

  /** The handler without that message (`deq(true)`; an empty queue raises and is skipped). */
  function Dequeued(h: Handler): Handler {
    if h.outQueue == [] then h else h.(outQueue := h.outQueue[1..])
  }

  /** What `cycle_out_messages` collects: the oldest output of each handler, in creation order. */
  function Heads(order: seq<string>, hs: map<string, Handler>): (r: seq<Msg>)
    requires forall i :: 0 <= i < |order| ==> order[i] in hs
    ensures |r| <= |order|
  {
    if order == [] then []
    else Heads(order[..|order| - 1], hs) + Head(hs[order[|order| - 1]])
  }

  /** Every handler after `cycle_out_messages`. */
  function DequeuedAll(hs: map<string, Handler>): (r: map<string, Handler>)
    ensures r.Keys == hs.Keys
  {
    map k | k in hs :: Dequeued(hs[k])
  }

  /** The messages waiting in the output queues of the listed handlers. */
  function Pending(order: seq<string>, hs: map<string, Handler>): nat
    requires forall i :: 0 <= i < |order| ==> order[i] in hs
  {
    if order == [] then 0
    else Pending(order[..|order| - 1], hs) + |hs[order[|order| - 1]].outQueue|
  }

  /**
   * Collecting output neither loses nor duplicates messages: what was
   * pending is what is collected plus what stays pending.
   */
  lemma {:induction false} CollectConserves(order: seq<string>, hs: map<string, Handler>)
    requires forall i :: 0 <= i < |order| ==> order[i] in hs
    ensures Pending(order, hs) == |Heads(order, hs)| + Pending(order, DequeuedAll(hs))
  {
    if order != [] {
      var init := order[..|order| - 1];
      CollectConserves(init, hs);
    }
  }

  /** Collecting output leaves every handler's id, and so a well-formed registry, as it was. */
  lemma DequeuedAllWellFormed(reg: Registry)
    requires WellFormed(reg)
    ensures WellFormed(reg.(handlers := DequeuedAll(reg.handlers)))
    ensures forall k :: k in reg.handlers ==> DequeuedAll(reg.handlers)[k].id == reg.handlers[k].id
  {
  }

  /** Collecting from one more handler appends that handler's oldest output. */
  lemma HeadsSnoc(order: seq<string>, i: nat, hs: map<string, Handler>)
    requires i < |order| && forall j :: 0 <= j < |order| ==> order[j] in hs
    ensures Heads(order[..i + 1], hs) == Heads(order[..i], hs) + Head(hs[order[i]])
  {
    assert order[..i + 1][..i] == order[..i];
  }

  /** The handler keys visited so far grow by one, which was not yet visited. */
  lemma PrefixStep(order: seq<string>, i: nat)
    requires i < |order| && forall a, b :: 0 <= a < b < |order| ==> order[a] != order[b]
    ensures order[..i + 1] == order[..i] + [order[i]]
    ensures order[i] !in order[..i]
  {
    forall j | 0 <= j < i ensures order[..i][j] != order[i] {
      assert order[..i][j] == order[j];
    }
  }

  /** The handlers after collecting from the first `i` keys of `order`. */
  ghost predicate CollectedUpTo(order: seq<string>, i: nat, hs0: map<string, Handler>, hs: map<string, Handler>)
    requires i <= |order|
  {
    && hs.Keys == hs0.Keys
    && forall k :: k in hs ==> hs[k] == if k in order[..i] then Dequeued(hs0[k]) else hs0[k]
  }

  lemma CollectStep(order: seq<string>, i: nat, hs0: map<string, Handler>, hs: map<string, Handler>)
    requires i < |order| && forall a, b :: 0 <= a < b < |order| ==> order[a] != order[b]
    requires order[i] in hs0
    requires CollectedUpTo(order, i, hs0, hs)
    ensures hs[order[i]] == hs0[order[i]]
    ensures CollectedUpTo(order, i + 1, hs0, hs[order[i] := Dequeued(hs[order[i]])])
  {
    PrefixStep(order, i);
  }

  lemma CollectDone(order: seq<string>, hs0: map<string, Handler>, hs: map<string, Handler>)
    requires forall k :: k in hs0 <==> k in order
    requires CollectedUpTo(order, |order|, hs0, hs)
    ensures hs == DequeuedAll(hs0)
  {
    assert order[..|order|] == order;
  }

  /** The loop of `cycle_out_messages`, over the handlers in creation order. */
  method Collect(order: seq<string>, hs0: map<string, Handler>) returns (heads: seq<Msg>, hs: map<string, Handler>)
    requires forall i, j :: 0 <= i < j < |order| ==> order[i] != order[j]
    requires forall k :: k in hs0 <==> k in order
    ensures heads == Heads(order, hs0)
    ensures hs == DequeuedAll(hs0)
  {
    heads, hs := [], hs0;
    var i := 0;
    while i < |order|
      invariant 0 <= i <= |order|
      invariant heads == Heads(order[..i], hs0)
      invariant CollectedUpTo(order, i, hs0, hs)
    {
      var k := order[i];
      CollectStep(order, i, hs0, hs);
      HeadsSnoc(order, i, hs0);
      heads := heads + Head(hs[k]);
      hs := hs[k := Dequeued(hs[k])];
      i := i + 1;
    }
    CollectDone(order, hs0, hs);
    assert order[..i] == order;
  }

  class FanPipe {
    const getKey: Msg -> Option<string>  // @get_key
    var registry: Registry               // @handlers, in creation order
    var inQueue: seq<Msg>
    var outQueue: seq<Msg>

    ghost predicate Valid()
      reads this
    {
      WellFormed(registry)
    }

    constructor (getKey: Msg -> Option<string>)
      ensures Valid()
      ensures this.getKey == getKey && registry == Registry([], map[]) && inQueue == [] && outQueue == []
    {
      this.getKey := getKey;
      registry := Registry([], map[]);
      inQueue, outQueue := [], [];
    }

    /** `handler_for_message`: the key of the message's handler, which exists afterwards. */
    method HandlerForMessage(m: Msg) returns (r: Result<string, RouteError>)
      requires Valid()
      modifies this`registry
      ensures Valid()
      ensures !ValidKey(getKey(m)) ==> r == Failure(BadKey(m)) && registry == old(registry)
      ensures ValidKey(getKey(m)) ==>
        r == Success(getKey(m).value) && registry == Register(old(registry), getKey(m).value)
    {
      var key := getKey(m);
      if key.None? || key.value == "" {
        return Failure(BadKey(m));
      }
      RegisterSpec(registry, key.value);
      if key.value !in registry.handlers {
        registry := Registry(registry.order + [key.value],
                             registry.handlers[key.value := Handler(|registry.order|, [], [])]);
      }
      return Success(key.value);
    }

    /** `push_to_thread`: the message joins its handler's input queue. */
    method PushToThread(m: Msg) returns (r: Result<string, RouteError>)
      requires Valid()
      modifies this`registry
      ensures Valid()
      ensures !ValidKey(getKey(m)) ==> r == Failure(BadKey(m)) && registry == old(registry)
      ensures ValidKey(getKey(m)) ==>
        r == Success(getKey(m).value) && registry == Routed(old(registry), getKey(m).value, m)
    {
      r := HandlerForMessage(m);
      if r.Success? {
        var h := registry.handlers[r.value];
        registry := registry.(handlers := registry.handlers[r.value := h.(inQueue := h.inQueue + [m])]);
      }
    }

    /** `cycle_in_messages`: route the oldest inbound message, if any.  A message with a bad key is dropped. */
    method CycleIn() returns (r: Result<bool, RouteError>)
      requires Valid()
      modifies this`inQueue, this`registry
      ensures Valid()
      ensures old(inQueue) == [] ==> r == Success(false) && inQueue == [] && registry == old(registry)
      ensures old(inQueue) != [] ==> inQueue == old(inQueue)[1..]
      ensures old(inQueue) != [] && ValidKey(getKey(old(inQueue)[0])) ==>
        r == Success(true) && registry == Routed(old(registry), getKey(old(inQueue)[0]).value, old(inQueue)[0])
      ensures old(inQueue) != [] && !ValidKey(getKey(old(inQueue)[0])) ==>
        r == Failure(BadKey(old(inQueue)[0])) && registry == old(registry)
    {
      if inQueue == [] {
        return Success(false);
      }
      var m := inQueue[0];
      inQueue := inQueue[1..];
      var pushed := PushToThread(m);
      if pushed.Failure? {
        return Failure(pushed.error);
      }
      return Success(true);
    }

    /** `cycle_out_messages`: forward the oldest output of every handler, in creation order. */
    method CycleOut()
      requires Valid()
      modifies this`outQueue, this`registry
      ensures Valid()
      ensures registry == old(registry).(handlers := DequeuedAll(old(registry).handlers))
      ensures outQueue == old(outQueue) + Heads(old(registry).order, old(registry).handlers)
    {
      DequeuedAllWellFormed(registry);
      var heads, hs := Collect(registry.order, registry.handlers);
      outQueue := outQueue + heads;
      registry := registry.(handlers := hs);
    }

    /** `cycle`: route one inbound message, then collect output; a bad key raises before any output is collected. */
    method Cycle() returns (r: Result<bool, RouteError>)
      requires Valid()
      modifies this`inQueue, this`outQueue, this`registry
      ensures Valid()
      ensures inQueue == if old(inQueue) == [] then [] else old(inQueue)[1..]
      ensures r.Failure? ==> outQueue == old(outQueue)
      ensures r.Failure? <==> old(inQueue) != [] && !ValidKey(getKey(old(inQueue)[0]))
      ensures r == Success(true) <==> old(inQueue) != [] && ValidKey(getKey(old(inQueue)[0]))
      ensures r == Success(false) ==>
        && outQueue == old(outQueue) + Heads(old(registry).order, old(registry).handlers)
        && registry == old(registry).(handlers := DequeuedAll(old(registry).handlers))
      ensures r == Success(true) ==>
        var routed := Routed(old(registry), getKey(old(inQueue)[0]).value, old(inQueue)[0]);
        && outQueue == old(outQueue) + Heads(routed.order, routed.handlers)
        && registry == routed.(handlers := DequeuedAll(routed.handlers))
    {
      r := CycleIn();
      if r.Failure? {
        return;
      }
      CycleOut();
    }
  }
}
