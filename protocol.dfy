/** The request/response exchange as transitions of the shared store. Each
    function gives the store after one step of `CorsEventEmitter`; the
    methods of the emitter are proved to perform exactly these writes, and
    the lemmas here say what the steps mean. */
module Protocol {
  import opened Strings
  import opened Values
  import opened Keys
  import opened Queue

  /** The shared store: a string-keyed map; a missing key is `undefined`. */
  type Store = map<string, Value>

  /** `getValue(key)`. */
  function Get(m: Store, key: string): Value
  {
    if key in m then m[key] else Undefined
  }

  /** `emit`: state 0, the arguments, then the id appended to the queue read
      after those two writes. */
  function EmitStore(m: Store, tabId: string, name: string, id: string, args: Value): Store
  {
    var key := ChannelKey(tabId, name);
    var m1 := m[KeyOfState(id) := Num(0)][KeyOfArguments(id) := args];
    m1[key := Str(AppendToQueue(Get(m1, key), id))]
  }

  /** The `on` listener on queue key `key` when that key changes to `curr`:
      on a remote change with a non-empty popped id, the handler's result
      under `return`, then state 1, then the rest of the list as the queue.
      The 100 ms delay before the last two writes is taken as elapsed. */
  function ServiceStore(m: Store, key: string, curr: Value, remote: bool, handler: Value -> Value): Store
  {
    if !remote then m
    else
      var p := PopQueue(curr);
      if p.id == "" then m
      else
        m[KeyOfReturn(p.id) := handler(Get(m, KeyOfArguments(p.id)))]
         [KeyOfState(p.id) := Num(1)]
         [key := Str(Join(p.rest, ','))]
  }

  /** The emitter's state listener, after handing `return` to the callback:
      the three temporary keys of the call deleted. */
  function CompleteStore(m: Store, id: string): Store
  {
    m - {KeyOfState(id), KeyOfReturn(id), KeyOfArguments(id)}
  }

  /** `emit` sets the state to 0 and the arguments, makes the queue the old
      queue with the id appended, and touches no other key. */
  lemma EmitEffect(m: Store, tabId: string, name: string, id: string, args: Value)
    requires ValidId(id)
    ensures var m' := EmitStore(m, tabId, name, id, args);
            var key := ChannelKey(tabId, name);
            && Get(m', KeyOfState(id)) == Num(0)
            && Get(m', KeyOfArguments(id)) == args
            && Get(m', key) == Str(AppendToQueue(Get(m, key), id))
            && forall k :: k != key && k != KeyOfState(id) && k != KeyOfArguments(id) ==>
                 (k in m' <==> k in m) && Get(m', k) == Get(m, k)
  {
    ChannelKeyIsNotTempKey(tabId, name, State, id);
    ChannelKeyIsNotTempKey(tabId, name, Arguments, id);
    TempKeysInjective(State, id, Arguments, id);
  }

  /** On a remote change that pops a valid id, the listener writes exactly
      three keys: the handler's result on the call's arguments, state 1, and
      the queue without the popped id. */
  lemma ServiceEffect(m: Store, tabId: string, name: string, curr: Value, handler: Value -> Value)
    requires ValidId(PopQueue(curr).id)
    ensures var key := ChannelKey(tabId, name);
            var p := PopQueue(curr);
            var m' := ServiceStore(m, key, curr, true, handler);
            && Get(m', KeyOfReturn(p.id)) == handler(Get(m, KeyOfArguments(p.id)))
            && Get(m', KeyOfState(p.id)) == Num(1)
            && Get(m', key) == Str(Join(p.rest, ','))
            && forall k :: k != key && k != KeyOfState(p.id) && k != KeyOfReturn(p.id) ==>
                 (k in m' <==> k in m) && Get(m', k) == Get(m, k)
  {
    var key := ChannelKey(tabId, name);
    var p := PopQueue(curr);
    var id := p.id;
    ChannelKeyIsNotTempKey(tabId, name, State, id);
    ChannelKeyIsNotTempKey(tabId, name, Return, id);
    TempKeysInjective(State, id, Return, id);
    assert |id| == 32;
    var written := handler(Get(m, KeyOfArguments(id)));
    ThreeWrites(m, KeyOfReturn(id), written, KeyOfState(id), Num(1), key, Str(Join(p.rest, ',')));
  }

  /** Three successive writes leave every other key as it was. */
  lemma ThreeWrites(m: Store, a: string, va: Value, b: string, vb: Value, c: string, vc: Value)
    ensures var m' := m[a := va][b := vb][c := vc];
            && Get(m', c) == vc
            && (b != c ==> Get(m', b) == vb)
            && (a != b && a != c ==> Get(m', a) == va)
            && forall k :: k != a && k != b && k != c ==> (k in m' <==> k in m) && Get(m', k) == Get(m, k)
  {
  }

  /** A change the listener's own context made is ignored, and so is one
      whose popped id is empty. */
  lemma ServiceIgnores(m: Store, key: string, curr: Value, remote: bool, handler: Value -> Value)
    requires !remote || PopQueue(curr).id == ""
    ensures ServiceStore(m, key, curr, remote, handler) == m
  {
  }

  /** One whole exchange. `emit` queues call `id`; the listener, told that
      the queue changed to what `emit` wrote, services that call; the
      emitter's state listener then reads the handler's result on the
      emitted arguments, and its cleanup leaves the store as it was before
      the call, except that the call's three temporary keys are gone and the
      queue is back to its old string. */
  lemma {:induction false} RequestResponse(m: Store, tabId: string, name: string, id: string, args: Value, handler: Value -> Value)
    requires ValidId(id)
    ensures var key := ChannelKey(tabId, name);
            var m1 := EmitStore(m, tabId, name, id, args);
            var m2 := ServiceStore(m1, key, Get(m1, key), true, handler);
            var before := Get(m, key);
            && Get(m2, KeyOfReturn(id)) == handler(args)
            && Get(m2, KeyOfState(id)) == Num(1)
            && CompleteStore(m2, id)
               == (m - {KeyOfState(id), KeyOfReturn(id), KeyOfArguments(id)})
                  [key := Str(if Truthy(before) then ToJsString(before) else "")]
  {
    var key := ChannelKey(tabId, name);
    var m1 := EmitStore(m, tabId, name, id, args);
    EmitEffect(m, tabId, name, id, args);
    assert !(',' in id) by {
      assert forall i :: 0 <= i < |id| ==> id[i] != ',';
    }
    PopAfterAppend(Get(m, key), id);
    assert PopQueue(Get(m1, key)).id == id;
    ServiceEffect(m1, tabId, name, Get(m1, key), handler);
    var m2 := ServiceStore(m1, key, Get(m1, key), true, handler);
    ChannelKeyIsNotTempKey(tabId, name, State, id);
    ChannelKeyIsNotTempKey(tabId, name, Arguments, id);
    ChannelKeyIsNotTempKey(tabId, name, Return, id);
    TempKeysInjective(Return, id, Arguments, id);
    var gone := {KeyOfState(id), KeyOfReturn(id), KeyOfArguments(id)};
    assert Get(m2, key) == Str(Join(Entries(Get(m, key)), ','));
    forall k | k !in gone && k != key
      ensures (k in m2 <==> k in m) && Get(m2, k) == Get(m, k)
    {
      assert (k in m2 <==> k in m1) && Get(m2, k) == Get(m1, k);
    }
    RemovedAndRewritten(m, m2, gone, key, Str(Join(Entries(Get(m, key)), ',')));
  }

  /** Two stores that agree outside `gone` and `key`, where the second holds
      `v` under `key`, are equal once `gone` is removed from both and the
      first is given `v` under `key`. */
  lemma RemovedAndRewritten(m: Store, m2: Store, gone: set<string>, key: string, v: Value)
    requires key !in gone && key in m2 && m2[key] == v
    requires forall k :: k !in gone && k != key ==> (k in m2 <==> k in m) && Get(m2, k) == Get(m, k)
    ensures m2 - gone == (m - gone)[key := v]
  {
    var left, right := m2 - gone, (m - gone)[key := v];
    forall k ensures (k in left <==> k in right) && (k in left ==> left[k] == right[k]) {
      if k != key && k !in gone {
        assert Get(m2, k) == Get(m, k);
      }
    }
  }
}
