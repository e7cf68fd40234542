/** `CorsEventEmitter` over the shared store. Two execution contexts (tabs or
    frames) are two `CorsEventEmitter` objects over one `Storage`. The
    platform's change notifications are explicit: whoever drives the model
    calls `DeliverChange` with the listener id, the new value and the
    `remote` flag the platform would report. */
module Emitter {
  import opened Strings
  import opened Values
  import opened Keys
  import opened Queue
  import opened Protocol
  import opened Sweep

  /** One invocation of an `emit` callback: the call id, the return value it
      was handed and its `remote` flag. */
  datatype Delivery = Delivery(id: string, returned: Value, remote: bool)

  /** A change listener this context has registered with the platform. */
  datatype Listener =
    | StateListener(id: string)
      // `emit`'s one-shot listener on the state key of call `id`
    | QueueListener(key: string, handler: Value -> Value)
      // `on`'s listener on queue key `key`

  /** The persisted store shared by every context. */
  class Storage {
    var values: Store

    constructor (initial: Store)
      ensures values == initial
    {
      values := initial;
    }

    /** `setValue(key, v)`. */
    method Set(key: string, v: Value)
      modifies this
      ensures values == old(values)[key := v]
    {
      values := values[key := v];
    }

    /** `deleteValue(key)`. */
    method Delete(key: string)
      modifies this
      ensures values == old(values) - {key}
    {
      values := values - {key};
    }
  }

  /** The emitter of one context: its registry `eventMap`, the change
      listeners the context has registered (with the platform's counter that
      numbers them), and the record of the callbacks it has invoked. */
  class CorsEventEmitter {
    const storage: Storage
    var eventMap: map<string, nat>
    var listeners: map<nat, Listener>
    var nextListenerId: nat
    var delivered: seq<Delivery>

    /** Listener ids are positive (so truthy) and below the counter; every
        registry entry names a live queue listener on its own key. */
    ghost predicate Valid()
      reads this
    {
      && nextListenerId >= 1
      && (forall lid :: lid in listeners ==> 1 <= lid < nextListenerId)
      && (forall key :: key in eventMap ==>
            && eventMap[key] in listeners
            && listeners[eventMap[key]].QueueListener?
            && listeners[eventMap[key]].key == key)
    }

    constructor (storage: Storage)
      ensures Valid() && this.storage == storage
      ensures eventMap == map[] && listeners == map[] && delivered == []
    {
      this.storage := storage;
      eventMap := map[];
      listeners := map[];
      nextListenerId := 1;
      delivered := [];
    }

    /** `addConfigChangeListener`: a fresh listener id. */
    method AddListener(l: Listener) returns (lid: nat)
      requires Valid()
      modifies this
      ensures Valid()
      ensures lid == old(nextListenerId) && lid !in old(listeners)
      ensures listeners == old(listeners)[lid := l] && nextListenerId == old(nextListenerId) + 1
      ensures eventMap == old(eventMap) && delivered == old(delivered)
    {
      lid := nextListenerId;
      listeners := listeners[lid := l];
      nextListenerId := nextListenerId + 1;
    }

    /** `removeConfigChangeListener`. */
    method RemoveListener(lid: nat)
      modifies this
      ensures listeners == old(listeners) - {lid}
      ensures eventMap == old(eventMap) && nextListenerId == old(nextListenerId)
      ensures delivered == old(delivered)
    {
      listeners := listeners - {lid};
    }

    /** `emit(name, args, callback)` once the tab id is known and `id` has been
        drawn. The callback is identified by the call id. */
    method Emit(tabId: string, name: string, id: string, args: Value)
      requires Valid() && ValidId(id)
      modifies this, storage
      ensures Valid()
      ensures storage.values == EmitStore(old(storage.values), tabId, name, id, args)
      ensures listeners == old(listeners)[old(nextListenerId) := StateListener(id)]
      ensures nextListenerId == old(nextListenerId) + 1
      ensures eventMap == old(eventMap) && delivered == old(delivered)
    {
      var key := ChannelKey(tabId, name);
      storage.Set(KeyOfState(id), Num(0));
      storage.Set(KeyOfArguments(id), args);
      var listenerId := AddListener(StateListener(id));
      var current := Get(storage.values, key);
      var list := if Truthy(current) then Split(ToJsString(current), ',') else [];
      storage.Set(key, Str(Join(list + [id], ',')));
    }

    /** `on(name, handler)` once the tab id is known: the listener id, either
        the one already registered for the queue key or a new one. */
    method On(tabId: string, name: string, handler: Value -> Value) returns (lid: nat)
      requires Valid()
      modifies this, storage
      ensures Valid()
      ensures ChannelKey(tabId, name) in eventMap && eventMap[ChannelKey(tabId, name)] == lid
      ensures old(ChannelKey(tabId, name) in eventMap) ==>
                && lid == old(eventMap[ChannelKey(tabId, name)])
                && eventMap == old(eventMap) && listeners == old(listeners)
                && nextListenerId == old(nextListenerId)
                && storage.values == old(storage.values)
      ensures old(ChannelKey(tabId, name) !in eventMap) ==>
                && lid == old(nextListenerId)
                && eventMap == old(eventMap)[ChannelKey(tabId, name) := lid]
                && listeners == old(listeners)[lid := QueueListener(ChannelKey(tabId, name), handler)]
                && nextListenerId == old(nextListenerId) + 1
                && storage.values == old(storage.values)[ChannelKey(tabId, name) := Str("")]
      ensures delivered == old(delivered)
    {
      var key := ChannelKey(tabId, name);
      var originId := if key in eventMap then eventMap[key] else 0;
      if originId != 0 {
        lid := originId;
      } else {
        storage.Set(key, Str(""));
        lid := AddListener(QueueListener(key, handler));
        eventMap := eventMap[key := lid];
      }
    }

    /** `off(name)`: looks the listener up under `eventKey(name)`, without the
        tab prefix. */
    method Off(name: string)
      requires Valid()
      modifies this
      ensures Valid()
      ensures old(EventKey(name) in eventMap) ==>
                && eventMap == old(eventMap) - {EventKey(name)}
                && listeners == old(listeners) - {old(eventMap[EventKey(name)])}
      ensures old(EventKey(name) !in eventMap) ==>
                eventMap == old(eventMap) && listeners == old(listeners)
      ensures nextListenerId == old(nextListenerId) && delivered == old(delivered)
    {
      var key := EventKey(name);
      var originId := if key in eventMap then eventMap[key] else 0;
      if originId != 0 {
        eventMap := eventMap - {key};
        RemoveListener(originId);
      }
    }

    /** The platform reports that the key watched by listener `lid` changed
        to `curr`. A listener that is gone is not called. */
    method DeliverChange(lid: nat, curr: Value, remote: bool)
      requires Valid()
      modifies this, storage
      ensures Valid()
      ensures eventMap == old(eventMap) && nextListenerId == old(nextListenerId)
      ensures lid !in old(listeners) ==>
                && listeners == old(listeners) && delivered == old(delivered)
                && storage.values == old(storage.values)
      ensures lid in old(listeners) && old(listeners[lid]).StateListener? ==>
                var id := old(listeners[lid]).id;
                && listeners == old(listeners) - {lid}
                && delivered == old(delivered) + [Delivery(id, Get(old(storage.values), KeyOfReturn(id)), remote)]
                && storage.values == CompleteStore(old(storage.values), id)
      ensures lid in old(listeners) && old(listeners[lid]).QueueListener? ==>
                var l := old(listeners[lid]);
                && listeners == old(listeners) && delivered == old(delivered)
                && storage.values == ServiceStore(old(storage.values), l.key, curr, remote, l.handler)
    {
      if lid in listeners {
        match listeners[lid] {
          case StateListener(id) => FireStateListener(lid, id, remote);
          case QueueListener(key, handler) => ServiceQueue(key, handler, curr, remote);
        }
      }
    }

    /** `emit`'s listener on the state key of call `id`: unregister, hand
        `return` to the callback, delete the three temporary keys. */
    method FireStateListener(lid: nat, id: string, remote: bool)
      requires Valid() && lid in listeners && listeners[lid] == StateListener(id)
      modifies this, storage
      ensures Valid()
      ensures listeners == old(listeners) - {lid}
      ensures delivered == old(delivered) + [Delivery(id, Get(old(storage.values), KeyOfReturn(id)), remote)]
      ensures storage.values == CompleteStore(old(storage.values), id)
      ensures eventMap == old(eventMap) && nextListenerId == old(nextListenerId)
    {
      RemoveListener(lid);
      var returned := Get(storage.values, KeyOfReturn(id));
      delivered := delivered + [Delivery(id, returned, remote)];
      storage.Delete(KeyOfState(id));
      storage.Delete(KeyOfReturn(id));
      storage.Delete(KeyOfArguments(id));
    }

    /** `on`'s listener on queue key `key`, with the 100 ms delay taken as
        elapsed. */
    method ServiceQueue(key: string, handler: Value -> Value, curr: Value, remote: bool)
      modifies storage
      ensures storage.values == ServiceStore(old(storage.values), key, curr, remote, handler)
    {
      if remote {
        // `String(curr).split(',')` and `list.pop()`
        var popped := PopQueue(curr);
        var id := popped.id;
        if id != "" {
          var returned := handler(Get(storage.values, KeyOfArguments(id)));
          storage.Set(KeyOfReturn(id), returned);
          storage.Set(KeyOfState(id), Num(1));
          storage.Set(key, Str(Join(popped.rest, ',')));
        }
      }
    }
  }

  /** The `window.onload` sweep over the keys `listValues()` enumerated. */
  method SweepStaleKeys(storage: Storage, listed: seq<string>)
    modifies storage
    ensures storage.values == SweepStore(old(storage.values), listed)
  {
    var i := 0;
    while i < |listed|
      invariant 0 <= i <= |listed|
      invariant storage.values == SweepStore(old(storage.values), listed[..i])
    {
      var key := listed[i];
      if MatchesTempPattern(key) {
        storage.Delete(key);
      }
      if MatchesQueuePattern(key) {
        storage.Delete(key);
      }
      assert listed[..i + 1] == listed[..i] + [key];
      i := i + 1;
    }
    assert listed[..i] == listed;
  }

  /** Calling `on` twice for the same event in one context registers one
      listener and returns its id both times. */
  method OnTwice(e: CorsEventEmitter, tabId: string, name: string, h1: Value -> Value, h2: Value -> Value)
    returns (first: nat, second: nat)
    requires e.Valid()
    modifies e, e.storage
    ensures e.Valid()
    ensures first == second
    ensures e.listeners.Keys <= old(e.listeners.Keys) + {first}
  {
    first := e.On(tabId, name, h1);
    second := e.On(tabId, name, h2);
  }

  /** `off` with the name given to `on` leaves the listener registered when
      the tab id has no dot. */
  method OffAfterOn(e: CorsEventEmitter, tabId: string, name: string, h: Value -> Value)
    returns (lid: nat)
    requires e.Valid() && '.' !in tabId
    modifies e, e.storage
    ensures e.Valid()
    ensures ChannelKey(tabId, name) in e.eventMap && e.eventMap[ChannelKey(tabId, name)] == lid
    ensures lid in e.listeners
  {
    lid := e.On(tabId, name, h);
    OffKeyMissesChannelKey(tabId, name, name);
    e.Off(name);
  }

  /** One call between two contexts over one store. Context `b` has a
      listener `lidB` on the queue key; `a` emits, `b` is told of the remote
      queue change, then `a` is told of the remote state change. The
      callback of `a` fires once with the handler's result on the arguments
      and `remote` set; the call's temporary keys are gone and the queue
      holds its old string again; a second notification delivers nothing. */
  method Exchange(a: CorsEventEmitter, b: CorsEventEmitter, lidB: nat,
                  tabId: string, name: string, id: string, args: Value)
    requires a != b && a.storage == b.storage
    requires a.Valid() && b.Valid() && ValidId(id)
    requires lidB in b.listeners && b.listeners[lidB].QueueListener?
    requires b.listeners[lidB].key == ChannelKey(tabId, name)
    modifies a, b, a.storage
    ensures a.Valid() && b.Valid()
    ensures a.delivered == old(a.delivered) + [Delivery(id, old(b.listeners[lidB]).handler(args), true)]
    ensures var before := Get(old(a.storage.values), ChannelKey(tabId, name));
            a.storage.values
              == (old(a.storage.values) - {KeyOfState(id), KeyOfReturn(id), KeyOfArguments(id)})
                 [ChannelKey(tabId, name) := Str(if Truthy(before) then ToJsString(before) else "")]
  {
    var key := ChannelKey(tabId, name);
    var handler := b.listeners[lidB].handler;
    var m := a.storage.values;
    RequestResponse(m, tabId, name, id, args, handler);
    var lidA := a.nextListenerId;
    a.Emit(tabId, name, id, args);
    b.DeliverChange(lidB, Get(a.storage.values, key), true);
    a.DeliverChange(lidA, Num(1), true);
    var once := a.delivered;
    a.DeliverChange(lidA, Num(1), true);
    assert a.delivered == once;
  }
}
