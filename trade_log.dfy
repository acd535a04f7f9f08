/**
 * The bounded trade log of utils/log.ts (`logTrade`) and, with the same
 * rule, the event log of bot.ts (`logEvent`): push the new entry, then drop
 * the oldest one once there are more than 1000.
 *
 * The timestamp (`new Date().toLocaleString()`) is a parameter.
 */
module TradeLog {

  const MAX_ENTRIES: nat := 1000

  datatype TradeLogItem = TradeLogItem(time: string, kind: string, detail: string)

  function Min(a: int, b: int): int { if a <= b then a else b }

  /** One `push` followed by `if (log.length > 1000) log.shift()`. */
  function PushBounded<T>(log: seq<T>, item: T): (r: seq<T>)
    ensures |r| > 0 && r[|r| - 1] == item
    ensures |log| < MAX_ENTRIES ==> r == log + [item]
    ensures |log| >= MAX_ENTRIES ==> |r| == |log|
    ensures |log| <= MAX_ENTRIES ==> |r| <= MAX_ENTRIES
    ensures |r| <= |log| + 1 && r[..|r| - 1] == log[|log| + 1 - |r|..]
  {
    var pushed := log + [item];
    if |pushed| > MAX_ENTRIES then pushed[1..] else pushed
  }

  /** The log after the entries `items` were logged one by one. */
  function LogAll<T>(log: seq<T>, items: seq<T>): seq<T>
    decreases |items|
  {
    if items == [] then log else LogAll(PushBounded(log, items[0]), items[1..])
  }

  /** Dropping a prefix commutes with appending. */
  lemma DropThenAppend<T>(a: seq<T>, k: nat, b: seq<T>)
    requires k <= |a|
    ensures a[k..] + b == (a + b)[k..]
  {
  }

  /** A log that starts within the bound holds `min(n, 1000)` entries after
      `n` more were logged. */
  lemma {:induction false} LogAllLength<T>(log: seq<T>, items: seq<T>)
    requires |log| <= MAX_ENTRIES
    ensures |LogAll(log, items)| == Min(|log| + |items|, MAX_ENTRIES)
    decreases |items|
  {
    if items != [] {
      LogAllLength(PushBounded(log, items[0]), items[1..]);
    }
  }

  /** The log is always the newest part of everything logged, in order. */
  lemma {:induction false} LogAllIsSuffix<T>(log: seq<T>, items: seq<T>)
    ensures var r := LogAll(log, items);
      |r| <= |log| + |items| && r == (log + items)[|log| + |items| - |r|..]
    decreases |items|
  {
    if items != [] {
      var pushed := log + [items[0]];
      var next := PushBounded(log, items[0]);
      var k := |pushed| - |next|;
      assert next == pushed[k..];
      LogAllIsSuffix(next, items[1..]);
      DropThenAppend(pushed, k, items[1..]);
      assert pushed + items[1..] == log + items;
    }
  }

  /** The trade log a strategy owns. */
  class TradeLog {
    var entries: seq<TradeLogItem>

    ghost predicate Valid()
      reads this
    {
      |entries| <= MAX_ENTRIES
    }

    constructor()
      ensures Valid() && entries == []
    {
      entries := [];
    }

    /** `logTrade`: the new entry is last; the oldest goes once the log
        passes 1000 entries. */
    method LogTrade(time: string, kind: string, detail: string)
      modifies this`entries
      ensures entries == PushBounded(old(entries), TradeLogItem(time, kind, detail))
      ensures old(Valid()) ==> Valid()
    {
      entries := entries + [TradeLogItem(time, kind, detail)];
      if |entries| > MAX_ENTRIES {
        entries := entries[1..];
      }
    }
  }
}
