// The shared state behind the realtime stock listener (useRealtimeStock.js):
// pushed stock updates wait in a map keyed by item and warehouse until a
// batch is handed to every registered handler. The step functions are here;
// the module-level state object is in RealtimeStock. Handlers are opaque
// callbacks, so they are identified by a number and each call is recorded.

module RealtimeStockModel {
  import opened Common

  const MaxBatchSize: nat := 100

  /** One entry of an event's `stock_updates`; a missing field is `None`. */
  datatype StockPush = StockPush(itemCode: Option<string>, warehouse: Option<string>, actualQty: Option<real>)

  /** A `pos_stock_update` event; `updates` is `None` when `stock_updates`
      is missing. */
  datatype Event = Event(updates: Option<seq<StockPush>>)

  /** One call of a handler with a batch. */
  datatype Delivery = Delivery(handler: nat, batch: seq<StockPush>)

  datatype ListenerState = ListenerState(
    listening: bool,
    handlers: seq<nat>,
    pending: JsMap<StockPush>,
    timerArmed: bool,
    delivered: seq<Delivery>)

  /** A field as a template literal writes it. */
  function Shown(f: Option<string>): string
  {
    if f.Some? then f.value else "undefined"
  }

  /** The deduplication key `${item_code}|${warehouse}`. */
  function PushKey(u: StockPush): string
  {
    Shown(u.itemCode) + "|" + Shown(u.warehouse)
  }

  /** The pending map after the `forEach` of `handleStockUpdate`. */
  function Queued(pending: JsMap<StockPush>, updates: seq<StockPush>): JsMap<StockPush>
  {
    if updates == [] then pending
    else MapSet(Queued(pending, updates[..|updates| - 1]), PushKey(updates[|updates| - 1]), updates[|updates| - 1])
  }

  /** Every handler, in registration order, called with the same batch. */
  function Deliveries(handlers: seq<nat>, batch: seq<StockPush>): (ds: seq<Delivery>)
    ensures |ds| == |handlers| && forall i :: 0 <= i < |handlers| ==> ds[i] == Delivery(handlers[i], batch)
  {
    if handlers == [] then [] else Deliveries(handlers[..|handlers| - 1], batch) + [Delivery(handlers[|handlers| - 1], batch)]
  }

  ghost predicate Valid(s: ListenerState)
  {
    JsMapValid(s.pending) && NoDuplicates(s.handlers)
  }

  /** `processBatchedUpdates`. A handler that throws is caught, so every
      handler is called. */
  function Process(s: ListenerState): ListenerState
    requires Valid(s)
  {
    if |s.pending.keys| == 0 then s
    else s.(pending := JsMap([], map[]), delivered := s.delivered + Deliveries(s.handlers, Values(s.pending)))
  }

  /** `scheduleBatchUpdate`: the timer is cleared; at the size limit the
      batch goes out at once, otherwise the timer is armed. */
  function Schedule(s: ListenerState): ListenerState
    requires Valid(s)
  {
    var t := s.(timerArmed := false);
    if |t.pending.keys| >= MaxBatchSize then Process(t) else t.(timerArmed := true)
  }

  /** `handleStockUpdate`. An empty `stock_updates` list is truthy, so it
      still reschedules. */
  function HandleEvent(s: ListenerState, data: Option<Event>): ListenerState
    requires Valid(s)
  {
    if data.None? || data.value.updates.None? then s
    else
      QueuedValid(s.pending, data.value.updates.value);
      Schedule(s.(pending := Queued(s.pending, data.value.updates.value)))
  }

  /** The batch timer's callback. */
  function TimerFired(s: ListenerState): ListenerState
    requires Valid(s)
  {
    Process(s).(timerArmed := false)
  }

  /** `flushUpdates`. */
  function Flush(s: ListenerState): ListenerState
    requires Valid(s)
  {
    Process(s.(timerArmed := false))
  }

  /** `startListening`; `socket` says whether the realtime client exists. */
  function Start(s: ListenerState, socket: bool): ListenerState
  {
    if s.listening || !socket then s else s.(listening := true)
  }

  /** `stopListening`: the timer and the pending updates are dropped. */
  function Stop(s: ListenerState): ListenerState
  {
    if !s.listening then s else s.(timerArmed := false, pending := JsMap([], map[]), listening := false)
  }

  /** `onStockUpdate`; `handler` is `None` when it is not a function, which
      throws. */
  function Subscribe(s: ListenerState, handler: Option<nat>, socket: bool): Result<ListenerState>
  {
    if handler.None? then Err("Handler must be a function")
    else
      var hs := if handler.value in s.handlers then s.handlers else s.handlers + [handler.value];
      var t := s.(handlers := hs);
      Ok(if |hs| == 1 then Start(t, socket) else t)
  }

  /** The cleanup function `onStockUpdate` returns. */
  function Unsubscribe(s: ListenerState, handler: nat): ListenerState
  {
    var t := s.(handlers := Removed(s.handlers, handler));
    if |t.handlers| == 0 then Stop(t) else t
  }

  /** `set.delete` on a duplicate-free list. */
  function Removed(hs: seq<nat>, h: nat): (r: seq<nat>)
    ensures forall x :: x in r <==> x in hs && x != h
    ensures |r| <= |hs|
  {
    if hs == [] then []
    else if hs[0] == h then Removed(hs[1..], h)
    else [hs[0]] + Removed(hs[1..], h)
  }

  // ---------------------------------------------------------------------
  // Properties
  // ---------------------------------------------------------------------

  /** Deleting from a duplicate-free list leaves it duplicate-free. */
  lemma {:induction false} RemovedUnique(hs: seq<nat>, h: nat)
    requires NoDuplicates(hs)
    ensures NoDuplicates(Removed(hs, h))
  {
    if hs != [] {
      var t := hs[1..];
      assert NoDuplicates(t) by {
        forall i, j | 0 <= i < j < |t|
          ensures t[i] != t[j]
        {
          assert t[i] == hs[i + 1] && t[j] == hs[j + 1];
        }
      }
      RemovedUnique(t, h);
      if hs[0] != h {
        var r := [hs[0]] + Removed(t, h);
        assert hs[0] !in t by {
          forall k | 0 <= k < |t|
            ensures t[k] != hs[0]
          {
            assert t[k] == hs[k + 1];
          }
        }
        forall i, j | 0 <= i < j < |r|
          ensures r[i] != r[j]
        {
          if i == 0 {
            assert r[j] in Removed(t, h);
          } else {
            assert r[i] == Removed(t, h)[i - 1] && r[j] == Removed(t, h)[j - 1];
          }
        }
      }
    }
  }

  /** Queuing keeps the pending map well formed. */
  lemma {:induction false} QueuedValid(pending: JsMap<StockPush>, updates: seq<StockPush>)
    requires JsMapValid(pending)
    ensures JsMapValid(Queued(pending, updates))
  {
    if updates != [] {
      var p := updates[..|updates| - 1];
      QueuedValid(pending, p);
      MapSetFacts(Queued(pending, p), PushKey(updates[|updates| - 1]), updates[|updates| - 1]);
    }
  }

  /** The keys of a batch, in order. */
  function Keys(updates: seq<StockPush>): (ks: seq<string>)
    ensures |ks| == |updates| && forall i :: 0 <= i < |updates| ==> ks[i] == PushKey(updates[i])
  {
    seq(|updates|, i requires 0 <= i < |updates| => PushKey(updates[i]))
  }

  /** The last update with a given key, if the batch holds one. */
  function LastWithKey(updates: seq<StockPush>, key: string): Option<nat>
  {
    LastIndexOf(Keys(updates), key)
  }

  /** Deduplication: after queuing, a key holds the last update of the batch
      with that key, or what it held before when the batch has none. */
  lemma {:induction false} QueuedLast(pending: JsMap<StockPush>, updates: seq<StockPush>, key: string)
    requires JsMapValid(pending)
    ensures var q := Queued(pending, updates);
      var k := LastWithKey(updates, key);
      (k.Some? ==> key in q.vals && q.vals[key] == updates[k.value]) &&
      (k.None? ==> (key in q.vals <==> key in pending.vals) && (key in pending.vals ==> q.vals[key] == pending.vals[key]))
  {
    if updates != [] {
      var p := updates[..|updates| - 1];
      QueuedValid(pending, p);
      QueuedLast(pending, p, key);
      MapSetFacts(Queued(pending, p), PushKey(updates[|updates| - 1]), updates[|updates| - 1]);
      assert Keys(p) == Keys(updates)[..|p|];
    }
  }

  /** Events without `stock_updates` change nothing. */
  lemma IgnoredEvent(s: ListenerState, data: Option<Event>)
    requires Valid(s) && (data.None? || data.value.updates.None?)
    ensures HandleEvent(s, data) == s
  {
  }

  /** A batch goes out to every handler, each with the same snapshot of the
      pending values, and the pending map is emptied; with nothing pending no
      handler is called. */
  lemma ProcessFacts(s: ListenerState)
    requires Valid(s)
    ensures var t := Process(s);
      Valid(t) && |t.pending.keys| == 0 && t.handlers == s.handlers && t.listening == s.listening &&
      (|s.pending.keys| == 0 ==> t == s) &&
      (|s.pending.keys| > 0 ==>
        |t.delivered| == |s.delivered| + |s.handlers| && t.delivered[..|s.delivered|] == s.delivered &&
        forall i :: 0 <= i < |s.handlers| ==> t.delivered[|s.delivered| + i] == Delivery(s.handlers[i], Values(s.pending)))
  {
  }

  /** At the size limit the batch is delivered at once and no timer is left
      armed; below it, nothing is delivered and the timer is armed. */
  lemma ScheduleFacts(s: ListenerState)
    requires Valid(s)
    ensures var t := Schedule(s);
      (|s.pending.keys| >= MaxBatchSize ==> |t.pending.keys| == 0 && !t.timerArmed &&
                                            |t.delivered| == |s.delivered| + |s.handlers|) &&
      (|s.pending.keys| < MaxBatchSize ==> t == s.(timerArmed := true))
  {
    ProcessFacts(s.(timerArmed := false));
  }

  /** Starting and stopping are idempotent. */
  lemma StartStopIdempotent(s: ListenerState, socket: bool)
    ensures Start(Start(s, socket), socket) == Start(s, socket)
    ensures Stop(Stop(s)) == Stop(s)
  {
  }

  /** Stopping leaves a silent listener; stopping a listening one drops the
      timer and the pending updates, stopping a silent one changes nothing. */
  lemma StopClears(s: ListenerState)
    ensures var t := Stop(s);
      !t.listening && t.handlers == s.handlers && t.delivered == s.delivered &&
      (s.listening ==> !t.timerArmed && t.pending == JsMap([], map[])) &&
      (!s.listening ==> t == s)
  {
  }

  /** The first handler starts the listener (when the realtime client
      exists); removing the last one stops it; a non-function is refused. */
  lemma SubscribeFacts(s: ListenerState, handler: Option<nat>, socket: bool)
    requires NoDuplicates(s.handlers)
    ensures handler.None? ==> Subscribe(s, handler, socket).Err?
    ensures handler.Some? ==>
      Subscribe(s, handler, socket).Ok? &&
      var t := Subscribe(s, handler, socket).value;
      NoDuplicates(t.handlers) && handler.value in t.handlers &&
      (forall x :: x in t.handlers <==> x in s.handlers || x == handler.value) &&
      (s.handlers == [] && socket ==> t.listening)
  {
    if handler.Some? && handler.value !in s.handlers {
      var e := s.handlers + [handler.value];
      forall i, j | 0 <= i < j < |e|
        ensures e[i] != e[j]
      {
        if j == |e| - 1 {
          assert e[i] in s.handlers;
        }
      }
    }
  }

  lemma UnsubscribeFacts(s: ListenerState, handler: nat)
    requires NoDuplicates(s.handlers)
    ensures var t := Unsubscribe(s, handler);
      NoDuplicates(t.handlers) && handler !in t.handlers &&
      (forall x :: x in t.handlers <==> x in s.handlers && x != handler) &&
      (t.handlers == [] ==> !t.listening && (s.listening ==> t.pending == JsMap([], map[])))
  {
    RemovedUnique(s.handlers, handler);
  }
}

// The module-level state of useRealtimeStock.js as one object; each action
// is proved to perform the step RealtimeStockModel describes.
module RealtimeStock {
  import opened Common
  import opened RealtimeStockModel

  class Listener {
    var listening: bool
    var handlers: seq<nat>
    var pending: JsMap<StockPush>
    var timerArmed: bool
    var delivered: seq<Delivery>

    function State(): ListenerState
      reads this
    {
      ListenerState(listening, handlers, pending, timerArmed, delivered)
    }

    ghost predicate Valid()
      reads this
    {
      RealtimeStockModel.Valid(State())
    }

    constructor()
      ensures Valid() && State() == ListenerState(false, [], JsMap([], map[]), false, [])
    {
      listening := false;
      handlers := [];
      pending := JsMap([], map[]);
      timerArmed := false;
      delivered := [];
    }

    /** `processBatchedUpdates`: the snapshot of the values, the map
        cleared, then one call per handler. */
    method ProcessBatchedUpdates()
      requires Valid()
      modifies this`pending, this`delivered
      ensures Valid() && State() == Process(old(State()))
    {
      if |pending.keys| == 0 {
        return;
      }
      var updates := MapValues(pending);
      pending := JsMap([], map[]);
      var i := 0;
      ghost var d0 := delivered;
      while i < |handlers|
        invariant 0 <= i <= |handlers| && delivered == d0 + Deliveries(handlers[..i], updates)
        invariant pending == JsMap([], map[])
      {
        assert handlers[..i + 1][..i] == handlers[..i];
        delivered := delivered + [Delivery(handlers[i], updates)];
        i := i + 1;
      }
      assert handlers[..i] == handlers;
    }

    /** `scheduleBatchUpdate`. */
    method ScheduleBatchUpdate()
      requires Valid()
      modifies this`pending, this`delivered, this`timerArmed
      ensures Valid() && State() == Schedule(old(State()))
    {
      timerArmed := false;
      if |pending.keys| >= MaxBatchSize {
        ProcessBatchedUpdates();
        return;
      }
      timerArmed := true;
    }

    /** `handleStockUpdate`. */
    method HandleStockUpdate(data: Option<Event>)
      requires Valid()
      modifies this`pending, this`delivered, this`timerArmed
      ensures Valid() && State() == HandleEvent(old(State()), data)
    {
      if data.None? || data.value.updates.None? {
        return;
      }
      var updates := data.value.updates.value;
      ghost var p0 := pending;
      var i := 0;
      while i < |updates|
        invariant 0 <= i <= |updates| && pending == Queued(p0, updates[..i]) && JsMapValid(pending)
        invariant unchanged(this`delivered, this`timerArmed)
      {
        assert updates[..i + 1][..i] == updates[..i];
        MapSetFacts(pending, PushKey(updates[i]), updates[i]);
        pending := MapSet(pending, PushKey(updates[i]), updates[i]);
        i := i + 1;
      }
      assert updates[..i] == updates;
      ScheduleBatchUpdate();
    }

    /** The batch timer's callback. */
    method BatchTimerFired()
      requires Valid()
      modifies this`pending, this`delivered, this`timerArmed
      ensures Valid() && State() == TimerFired(old(State()))
    {
      ProcessBatchedUpdates();
      timerArmed := false;
    }

    /** `flushUpdates`. */
    method FlushUpdates()
      requires Valid()
      modifies this`pending, this`delivered, this`timerArmed
      ensures Valid() && State() == Flush(old(State()))
    {
      timerArmed := false;
      ProcessBatchedUpdates();
    }

    /** `startListening`; `socket` says whether the realtime client
        exists. */
    method StartListening(socket: bool)
      modifies this`listening
      ensures State() == Start(old(State()), socket)
    {
      if listening {
        return;
      }
      if !socket {
        return;
      }
      listening := true;
    }

    /** `stopListening`. */
    method StopListening()
      modifies this`listening, this`timerArmed, this`pending
      ensures State() == Stop(old(State()))
    {
      if !listening {
        return;
      }
      timerArmed := false;
      pending := JsMap([], map[]);
      listening := false;
    }

    /** `onStockUpdate`; the handler stands in for the cleanup function it
        returns. */
    method OnStockUpdate(handler: Option<nat>, socket: bool) returns (r: Result<nat>)
      requires Valid()
      modifies this`handlers, this`listening
      ensures Valid()
      ensures var o := Subscribe(old(State()), handler, socket);
        (o.Err? <==> r.Err?) && (o.Ok? ==> State() == o.value && r == Ok(handler.value))
    {
      if handler.None? {
        return Err("Handler must be a function");
      }
      SubscribeFacts(State(), handler, socket);
      if handler.value !in handlers {
        handlers := handlers + [handler.value];
      }
      if |handlers| == 1 {
        StartListening(socket);
      }
      return Ok(handler.value);
    }

    /** The cleanup function `onStockUpdate` returns. */
    method Unregister(handler: nat)
      requires Valid()
      modifies this`handlers, this`listening, this`timerArmed, this`pending
      ensures Valid() && State() == Unsubscribe(old(State()), handler)
    {
      RemovedUnique(handlers, handler);
      handlers := RemoveHandler(handlers, handler);
      if |handlers| == 0 {
        StopListening();
      }
    }
  }

  /** `Array.from(map.values())`. */
  method MapValues(m: JsMap<StockPush>) returns (vs: seq<StockPush>)
    requires JsMapValid(m)
    ensures vs == Values(m)
  {
    vs := [];
    var i := 0;
    while i < |m.keys|
      invariant 0 <= i <= |m.keys| && vs == Values(m)[..i]
    {
      vs := vs + [m.vals[m.keys[i]]];
      i := i + 1;
    }
  }

  /** `set.delete(handler)`. */
  method RemoveHandler(hs: seq<nat>, h: nat) returns (r: seq<nat>)
    ensures r == Removed(hs, h)
  {
    r := [];
    var i := |hs|;
    while i > 0
      invariant 0 <= i <= |hs| && r == Removed(hs[i..], h)
    {
      i := i - 1;
      assert hs[i..][1..] == hs[i + 1..];
      if hs[i] != h {
        r := [hs[i]] + r;
      }
    }
  }
}
