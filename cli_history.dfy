/**
 * `InMemoryHistory`: the prompt history the line editor browses, most recent entry
 * first, holding at most `max` entries.
 */
module CliHistory {
  import opened Wrappers

  /** The capacity `Default::default` gives. */
  const DefaultMax: nat := 20

  /** The queue after `write(val)`: when full, the back (oldest) entry goes first. */
  function Written(entries: seq<string>, max: nat, val: string): (r: seq<string>)
    ensures r != [] && r[0] == val
    ensures |entries| < max ==> |r| == |entries| + 1
    ensures 0 < |entries| == max ==> |r| == max
    ensures |entries| <= max && 0 < max ==> |r| <= max
    ensures |r| <= |entries| + 1
    ensures forall i :: 0 <= i < |r| - 1 ==> r[i + 1] == entries[i]
  {
    [val] + (if |entries| == max && entries != [] then entries[..|entries| - 1] else entries)
  }

  /** A full queue loses exactly its oldest entry, which is gone unless written again. */
  lemma WrittenEvictsOldest(entries: seq<string>, max: nat, val: string)
    requires 0 < |entries| == max
    ensures Written(entries, max, val) == [val] + entries[..max - 1]
    ensures entries[max - 1] !in entries[..max - 1] && entries[max - 1] != val
        ==> entries[max - 1] !in Written(entries, max, val)
  {
  }

  /** A queue with room keeps every entry, each one position further back. */
  lemma WrittenKeepsAll(entries: seq<string>, max: nat, val: string)
    requires |entries| < max
    ensures Written(entries, max, val) == [val] + entries
  {
  }

  class InMemoryHistory {
    const max: nat
    var history: seq<string>

    /** The capacity bound that every `write` keeps. */
    ghost predicate Valid()
      reads this
    {
      0 < max && |history| <= max
    }

    /** `default()`: capacity 20, nothing remembered. */
    constructor Default()
      ensures Valid() && max == DefaultMax && history == []
    {
      max := DefaultMax;
      history := [];
    }

    /** `read(pos)`: the entry `pos` places behind the most recent one, if there is one. */
    function Read(pos: nat): (r: Option<string>)
      reads this
      ensures r.Some? <==> pos < |history|
      ensures r.Some? ==> r.value == history[pos]
    {
      if pos < |history| then Some(history[pos]) else None
    }

    /** `write(val)`: evicts the back when full, then pushes `val` to the front. */
    method Write(val: string)
      requires Valid()
      modifies this`history
      ensures Valid()
      ensures history == Written(old(history), max, val)
      ensures Read(0) == Some(val)
    {
      if |history| == max {
        history := history[..|history| - 1];
      }
      history := [val] + history;
    }
  }
}
