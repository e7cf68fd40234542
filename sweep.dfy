/** The start-up sweep: which keys the two patterns of `window.onload` match,
    and the store the sweep leaves. The matchers work on code points and so
    approximate the patterns, which JavaScript applies to UTF-16 code units. */
module Sweep {
  import opened Keys
  import opened Protocol

  /** `.` in a JavaScript regular expression, approximated on code points:
      any character but a line terminator. */
  predicate AnyChar(c: char)
  {
    c != '\n' && c != '\r' && c != '\U{2028}' && c != '\U{2029}'
  }

  /** The class `[0-9a-z]`. */
  predicate IsLowerAlnum(c: char)
  {
    '0' <= c <= '9' || 'a' <= c <= 'z'
  }

  predicate LiteralAt(s: string, i: nat, lit: string)
  {
    i + |lit| <= |s| && s[i..i + |lit|] == lit
  }

  predicate AnyCharAt(s: string, i: nat)
  {
    i < |s| && AnyChar(s[i])
  }

  /** `[0-9a-z]{32}` starting at position `i`. */
  predicate LowerAlnum32At(s: string, i: nat)
  {
    i + 32 <= |s| && forall j :: i <= j < i + 32 ==> IsLowerAlnum(s[j])
  }

  /** `_temp_.event.[0-9a-z]{32}.(state|return|arguments)` matched at position `i`. */
  predicate TempPatternAt(s: string, i: nat)
  {
    && LiteralAt(s, i, "_temp_") && AnyCharAt(s, i + 6)
    && LiteralAt(s, i + 7, "event") && AnyCharAt(s, i + 12)
    && LowerAlnum32At(s, i + 13) && AnyCharAt(s, i + 45)
    && (LiteralAt(s, i + 46, "state") || LiteralAt(s, i + 46, "return") || LiteralAt(s, i + 46, "arguments"))
  }

  /** The unanchored `test` of the first pattern: a match anywhere in the key. */
  predicate MatchesTempPattern(s: string)
  {
    exists i: nat | i < |s| :: TempPatternAt(s, i)
  }

  /** `[0-9a-z]{32}.cors.events.model` matched at position `i`. */
  predicate QueuePatternAt(s: string, i: nat)
  {
    && LowerAlnum32At(s, i) && AnyCharAt(s, i + 32)
    && LiteralAt(s, i + 33, "cors") && AnyCharAt(s, i + 37)
    && LiteralAt(s, i + 38, "events") && AnyCharAt(s, i + 44)
    && LiteralAt(s, i + 45, "model")
  }

  /** The unanchored `test` of the second pattern. */
  predicate MatchesQueuePattern(s: string)
  {
    exists i: nat | i < |s| :: QueuePatternAt(s, i)
  }

  /** A key the sweep deletes when it meets it. */
  predicate Swept(key: string)
  {
    MatchesTempPattern(key) || MatchesQueuePattern(key)
  }

  /** The store after the sweep has gone through the enumerated keys `listed`. */
  function SweepStore(m: Store, listed: seq<string>): Store
  {
    map k | k in m && !(k in listed && Swept(k)) :: m[k]
  }

  /** Every temporary key of a valid call id matches the first pattern. */
  lemma TempKeysAreSwept(slot: Slot, id: string)
    requires ValidId(id)
    ensures MatchesTempPattern(KeyOfSlot(slot, id))
  {
    var k := KeyOfSlot(slot, id);
    assert k[..6] == "_temp_";
    assert k[7..12] == "event";
    assert k[13..45] == id;
    assert LowerAlnum32At(k, 13) by {
      forall j | 13 <= j < 45 ensures IsLowerAlnum(k[j]) {
        assert k[j] == id[j - 13];
      }
    }
    match slot {
      case State => assert k[46..51] == "state";
      case Return => assert k[46..52] == "return";
      case Arguments => assert k[46..55] == "arguments";
    }
    assert TempPatternAt(k, 0);
  }

  /** The queue key of an event whose name starts with `model`, in a tab
      whose id ends with 32 characters of `[0-9a-z]`, matches the second
      pattern. */
  lemma ModelQueueKeysAreSwept(tabId: string, name: string)
    requires |tabId| >= 32 && LowerAlnum32At(tabId, |tabId| - 32)
    requires |name| >= 5 && name[..5] == "model"
    ensures MatchesQueuePattern(ChannelKey(tabId, name))
  {
    var k := ChannelKey(tabId, name);
    var i := |tabId| - 32;
    assert k[..|tabId|] == tabId;
    assert k[|tabId|..|tabId| + 13] == ".cors.events.";
    assert k[|tabId| + 13..|tabId| + 18] == "model";
    assert LowerAlnum32At(k, i) by {
      forall j | i <= j < i + 32 ensures IsLowerAlnum(k[j]) {
        assert k[j] == tabId[j];
      }
    }
    assert QueuePatternAt(k, i);
  }

  /** A sweep over the full enumeration of the store deletes every temporary
      key of every call, in flight or not, and keeps every key that matches
      neither pattern with its value. */
  lemma {:induction false} SweepDropsCallRecords(m: Store, listed: seq<string>, id: string)
    requires forall k :: k in m ==> k in listed
    requires ValidId(id)
    ensures var m' := SweepStore(m, listed);
            && KeyOfState(id) !in m' && KeyOfArguments(id) !in m' && KeyOfReturn(id) !in m'
            && forall k :: k in m && !Swept(k) ==> k in m' && m'[k] == m[k]
  {
    TempKeysAreSwept(State, id);
    TempKeysAreSwept(Arguments, id);
    TempKeysAreSwept(Return, id);
  }

  /** Sweeping twice over the same enumeration removes nothing more. */
  lemma SweepIdempotent(m: Store, listed: seq<string>)
    ensures SweepStore(SweepStore(m, listed), listed) == SweepStore(m, listed)
  {
  }
}
