/** The rolling window of committed transactions. */
module TxLog {
  import opened TxTypes

  /** The window `capacity` really gives: an entry is always pushed, so it never holds fewer than one. */
  function Width(capacity: nat): nat {
    if capacity == 0 then 1 else capacity
  }

  /** The last `Width(capacity)` entries of `history`. */
  function Window(capacity: nat, history: seq<LogEntry>): seq<LogEntry> {
    if |history| <= Width(capacity) then history else history[|history| - Width(capacity)..]
  }

  class TransactionLog {
    var entries: seq<LogEntry>
    const maxEntries: nat

    /** Everything ever appended. */
    ghost var history: seq<LogEntry>

    ghost predicate Valid()
      reads this
    {
      entries == Window(maxEntries, history)
    }

    constructor (maxEntries: nat)
      ensures Valid() && this.maxEntries == maxEntries && history == []
    {
      this.maxEntries := maxEntries;
      entries, history := [], [];
    }

    method Append(entry: LogEntry)
      requires Valid()
      modifies this
      ensures Valid() && history == old(history) + [entry]
    {
      if |entries| >= maxEntries && entries != [] {
        entries := entries[1..];
      }
      entries := entries + [entry];
      history := history + [entry];
    }

    /** What is left of the history: its latest entries, in order. */
    method Snapshot() returns (latest: seq<LogEntry>)
      requires Valid()
      ensures |latest| == if |history| <= Width(maxEntries) then |history| else Width(maxEntries)
      ensures history == history[..|history| - |latest|] + latest
    {
      latest := entries;
    }

    method Len() returns (length: nat)
      requires Valid()
      ensures length == |Window(maxEntries, history)|
    {
      length := |entries|;
    }
  }

  /** The advertised bound on the log's length holds for every history exactly when the capacity is not zero. */
  lemma CapacityBound(capacity: nat)
    ensures (forall history :: |Window(capacity, history)| <= capacity) <==> capacity > 0
  {
    if capacity == 0 {
      assert |Window(0, [LogEntry(0, 0, [])])| == 1;
    }
  }
}
