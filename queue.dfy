/** The pending-call queue kept under a queue key: a comma-joined list of call
    ids that `emit` appends to (read, split, concat, join) and that the `on`
    listener pops from the end. */
module Queue {
  import opened Strings
  import opened Values

  /** The ids `emit` reads out of a queue value: a falsy value is an empty
      queue, anything else is converted to a string and split at commas. */
  function Entries(v: Value): seq<string>
  {
    if Truthy(v) then Split(ToJsString(v), ',') else []
  }

  /** The string `emit` writes back after adding call `id` to the queue value
      `current`. */
  function AppendToQueue(current: Value, id: string): string
  {
    Join(Entries(current) + [id], ',')
  }

  /** What the listener takes out of a new queue value: the list split at
      commas, its last piece popped off as the id to service. */
  datatype Popped = Popped(rest: seq<string>, id: string)

  function PopQueue(curr: Value): (p: Popped)
  {
    var list := Split(ToJsString(curr), ',');
    Popped(list[..|list| - 1], list[|list| - 1])
  }

  /** A queue entry as `emit` makes them: non-empty and free of commas. */
  predicate ValidEntry(id: string)
  {
    id != "" && ',' !in id
  }

  predicate ValidEntries(entries: seq<string>)
  {
    forall i :: 0 <= i < |entries| ==> ValidEntry(entries[i])
  }

  /** The string `emit` writes: the id alone when the queue was falsy (absent
      or empty), otherwise the old queue string, a comma and the id. */
  lemma AppendShape(current: Value, id: string)
    ensures !Truthy(current) ==> AppendToQueue(current, id) == id
    ensures Truthy(current) ==> AppendToQueue(current, id) == ToJsString(current) + "," + id
  {
    if Truthy(current) {
      var s := ToJsString(current);
      JoinAppend(Split(s, ','), id, ',');
      JoinSplit(s, ',');
    }
  }

  /** A queue written as the join of valid entries reads back as those entries. */
  lemma EntriesOfJoin(entries: seq<string>)
    requires ValidEntries(entries)
    ensures Entries(Str(Join(entries, ','))) == entries
  {
    if entries != [] {
      JoinStartsWithFirst(entries, ',');
      SplitJoin(entries, ',');
    }
  }

  /** Appending keeps every earlier entry, in order, and adds the id at the end. */
  lemma AppendKeepsEntries(current: Value, id: string)
    requires ValidEntry(id)
    ensures Entries(Str(AppendToQueue(current, id))) == Entries(current) + [id]
  {
    var list := Entries(current) + [id];
    assert FreeOf(list, ',') by {
      forall i | 0 <= i < |list| ensures ',' !in list[i] {
        if i < |list| - 1 {
          assert list[i] == Split(ToJsString(current), ',')[i];
        }
      }
    }
    SplitJoin(list, ',');
    assert AppendToQueue(current, id) != "" by {
      JoinStartsWithFirst(list, ',');
    }
  }

  /** Round trip: popping what `emit` wrote gives back the id it appended,
      and rejoining the rest gives the queue string as it was before (the
      empty string for a falsy queue). */
  lemma {:induction false} PopAfterAppend(current: Value, id: string)
    requires ',' !in id
    ensures PopQueue(Str(AppendToQueue(current, id))) == Popped(Entries(current), id)
    ensures Join(Entries(current), ',') == if Truthy(current) then ToJsString(current) else ""
  {
    var list := Entries(current) + [id];
    assert FreeOf(list, ',') by {
      forall i | 0 <= i < |list| ensures ',' !in list[i] {
        if i < |list| - 1 {
          assert list[i] == Split(ToJsString(current), ',')[i];
        }
      }
    }
    SplitJoin(list, ',');
    assert list[..|list| - 1] == Entries(current);
    if Truthy(current) {
      JoinSplit(ToJsString(current), ',');
    }
  }

  /** The listener services the LAST entry of a queue of valid entries, and
      the queue it writes back holds exactly the others, in order. */
  lemma ServicesLast(entries: seq<string>)
    requires ValidEntries(entries) && entries != []
    ensures PopQueue(Str(Join(entries, ','))) == Popped(entries[..|entries| - 1], entries[|entries| - 1])
    ensures Entries(Str(Join(entries[..|entries| - 1], ','))) == entries[..|entries| - 1]
  {
    var init := entries[..|entries| - 1];
    SplitJoin(entries, ',');
    assert Split(ToJsString(Str(Join(entries, ','))), ',') == entries;
    EntriesOfJoin(init);
  }

  /** The queue is a stack: of two calls queued one after the other, the
      listener pops the later one first, and popping the rest it writes back
      yields the earlier one. Its own write of that rest is a local change it
      ignores, so the second pop needs a later remote change whose last piece is that
      id, for example another context writing that rest. */
  lemma {:induction false} LaterCallServicedFirst(entries: seq<string>, first: string, second: string)
    requires ValidEntries(entries) && ValidEntry(first) && ValidEntry(second)
    ensures var q1 := Str(AppendToQueue(Str(Join(entries, ',')), first));
            var q2 := Str(AppendToQueue(q1, second));
            PopQueue(q2) == Popped(entries + [first], second)
            && PopQueue(Str(Join(PopQueue(q2).rest, ','))) == Popped(entries, first)
  {
    var q0 := Str(Join(entries, ','));
    var q1 := Str(AppendToQueue(q0, first));
    EntriesOfJoin(entries);
    AppendKeepsEntries(q0, first);
    PopAfterAppend(q1, second);
    assert ValidEntries(entries + [first]);
    ServicesLast(entries + [first]);
    assert (entries + [first])[..|entries|] == entries;
  }

  /** The listener does nothing exactly when the last piece is empty: when
      the new queue value converts to the empty string or to a string ending
      in a comma (an emptied queue is written as `''`). */
  lemma NothingToService(curr: Value)
    ensures var s := ToJsString(curr);
            PopQueue(curr).id == "" <==> s == "" || s[|s| - 1] == ','
  {
    SplitLastEmpty(ToJsString(curr), ',');
  }

  /** A queue key deleted by another context under a live listener arrives
      as `undefined`, which converts to the string "undefined": the listener
      then services a call with that id. A deletion by its own context is
      local and ignored. */
  lemma DeletedQueuePopsUndefined()
    ensures PopQueue(Undefined) == Popped([], "undefined")
  {
    SplitFree("undefined", ',');
  }
}
