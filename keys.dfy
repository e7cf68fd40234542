/** Key naming of the emitter: the per-tab queue key
    `<tabId>.cors.events.<name>` and the three temporary keys of a call,
    `_temp_.event.<id>.state|arguments|return`. */
module Keys {
  import opened Strings

  predicate IsHexDigit(c: char)
  {
    '0' <= c <= '9' || 'a' <= c <= 'f'
  }

  /** A call id: a UUID with its dashes removed, 32 lower-case hex digits. */
  predicate ValidId(id: string)
  {
    |id| == 32 && forall i :: 0 <= i < |id| ==> IsHexDigit(id[i])
  }

  /** The three temporary slots of one call. */
  datatype Slot = State | Arguments | Return

  function SlotName(slot: Slot): string
  {
    match slot
    case State => "state"
    case Arguments => "arguments"
    case Return => "return"
  }

  /** `eventKey(name)`: the event's key without the tab prefix. */
  function EventKey(name: string): string
  {
    "cors.events." + name
  }

  /** The queue key `emit` and `on` compute: `tabId + '.' + eventKey(name)`. */
  function ChannelKey(tabId: string, name: string): string
  {
    tabId + "." + EventKey(name)
  }

  /** `tempKey(...args)`: the arguments behind the `_temp_` prefix, joined by dots. */
  function TempKey(args: seq<string>): string
  {
    Join(["_temp_"] + args, '.')
  }

  /** The key of one slot of call `id`, spelled out in full. */
  function KeyOfSlot(slot: Slot, id: string): (k: string)
    ensures k == "_temp_.event." + id + "." + SlotName(slot)
  {
    var parts := ["_temp_", "event", id, SlotName(slot)];
    assert ["_temp_"] + ["event", id, SlotName(slot)] == parts;
    assert Join(parts[2..], '.') == id + "." + SlotName(slot) by {
      assert parts[2..][1..] == [SlotName(slot)];
    }
    assert Join(parts[1..], '.') == "event." + id + "." + SlotName(slot) by {
      assert parts[1..][1..] == parts[2..];
    }
    TempKey(["event", id, SlotName(slot)])
  }

  function KeyOfReturn(id: string): string
  {
    KeyOfSlot(Return, id)
  }

  function KeyOfArguments(id: string): string
  {
    KeyOfSlot(Arguments, id)
  }

  function KeyOfState(id: string): string
  {
    KeyOfSlot(State, id)
  }

  /** The last six characters tell the slots apart. */
  function SlotTail(slot: Slot): string
  {
    match slot
    case State => ".state"
    case Arguments => "uments"
    case Return => "return"
  }

  lemma SlotTailIsSuffix(slot: Slot, id: string)
    ensures var k := KeyOfSlot(slot, id); |k| >= 6 && k[|k| - 6..] == SlotTail(slot)
  {
  }

  /** Temporary keys never collide: two of them are equal exactly when they
      name the same slot of the same call (for any ids at all). */
  lemma TempKeysInjective(s1: Slot, id1: string, s2: Slot, id2: string)
    ensures KeyOfSlot(s1, id1) == KeyOfSlot(s2, id2) <==> s1 == s2 && id1 == id2
  {
    var k1, k2 := KeyOfSlot(s1, id1), KeyOfSlot(s2, id2);
    if k1 == k2 {
      SlotTailIsSuffix(s1, id1);
      SlotTailIsSuffix(s2, id2);
      assert SlotTail(s1) == SlotTail(s2);
      assert s1 == s2;
      var n := |SlotName(s1)| + 1;
      assert k1[13..|k1| - n] == id1;
      assert k2[13..|k2| - n] == id2;
    }
  }

  /** The positions of the dots in a temporary key of a valid call id. */
  lemma TempKeyDots(slot: Slot, id: string, i: int)
    requires ValidId(id)
    requires 0 <= i < |KeyOfSlot(slot, id)|
    ensures KeyOfSlot(slot, id)[i] == '.' <==> i == 6 || i == 12 || i == 45
  {
  }

  /** A queue key is never a temporary key of a valid call id, whatever the
      tab id and event name: the queue key has dots five characters apart
      (around `cors`), a temporary key does not. */
  lemma ChannelKeyIsNotTempKey(tabId: string, name: string, slot: Slot, id: string)
    requires ValidId(id)
    ensures ChannelKey(tabId, name) != KeyOfSlot(slot, id)
  {
    var c := ChannelKey(tabId, name);
    var k := KeyOfSlot(slot, id);
    var t := |tabId|;
    assert c[t] == '.' && c[t + 5] == '.';
    if |c| == |k| {
      TempKeyDots(slot, id, t);
      TempKeyDots(slot, id, t + 5);
    }
  }

  /** `off` looks a listener up under `eventKey(name)`, without the tab prefix
      that `on` stored it under: when the tab id has no dot, the two keys
      never meet, whatever the two event names. */
  lemma OffKeyMissesChannelKey(tabId: string, onName: string, offName: string)
    requires '.' !in tabId
    ensures ChannelKey(tabId, onName) != EventKey(offName)
  {
    var c := ChannelKey(tabId, onName);
    var e := EventKey(offName);
    var t := |tabId|;
    assert e[..12] == "cors.events.";
    if t >= 11 {
      assert c[4] == tabId[4] && e[4] == '.';
    } else if t == 4 {
      assert c[5] == 'c' && e[5] == 'e';
    } else {
      assert c[t] == '.' && e[t] == "cors.events."[t];
    }
  }

  /** Tab namespacing: when tab ids have no dot, two queue keys are equal
      exactly when they belong to the same tab and the same event, so a call
      emitted in one tab never reaches a listener of another tab. */
  lemma ChannelKeyInjective(t1: string, n1: string, t2: string, n2: string)
    requires '.' !in t1 && '.' !in t2
    ensures ChannelKey(t1, n1) == ChannelKey(t2, n2) <==> t1 == t2 && n1 == n2
  {
    var k1, k2 := ChannelKey(t1, n1), ChannelKey(t2, n2);
    if |t1| < |t2| {
      assert k1[|t1|] == '.' && k2[|t1|] == t2[|t1|];
    } else if |t2| < |t1| {
      assert k2[|t2|] == '.' && k1[|t2|] == t1[|t2|];
    } else if k1 == k2 {
      assert t1 == k1[..|t1|] && t2 == k2[..|t2|];
      assert n1 == k1[|t1| + 13..] && n2 == k2[|t2| + 13..];
    }
  }

  /** Without the dot-free condition namespacing fails: a tab id holding
      `.cors.events.` shares its queue key with a shorter tab id, for another
      event name. */
  lemma DottedTabsShareQueueKey(tabId: string, n1: string, n2: string)
    ensures var longer := tabId + ".cors.events." + n1;
            && longer != tabId
            && ChannelKey(longer, n2) == ChannelKey(tabId, n1 + ".cors.events." + n2)
  {
    var longer := tabId + ".cors.events." + n1;
    assert |longer| > |tabId|;
  }
}
