/**
 * The page's rolling message log: newest entry first, at most twenty entries.
 */
module MessageLog {
  import opened Host

  /** Capacity of the log (the `slice(0, 20)` of `addLog`). */
  const MaxLog: nat := 20

  datatype LogKind = Info | Sent | Received | Error

  datatype LogEntry = LogEntry(id: nat, message: string, kind: LogKind, time: string)

  function Min(a: int, b: int): int
  {
    if a <= b then a else b
  }

  /** The entry `addLog` creates for `message` at instant `now`. */
  function MakeEntry(message: string, kind: LogKind, now: Instant): LogEntry
  {
    LogEntry(now.ms, message, kind, now.local)
  }

  /**
   * The state updater of `addLog`: `[entry, ...prev].slice(0, 20)`.
   * The new entry comes first, followed by as many of the previous entries,
   * in their previous order, as still fit.
   */
  function Rolled(entry: LogEntry, prev: seq<LogEntry>): (r: seq<LogEntry>)
    ensures |r| == Min(|prev| + 1, MaxLog)
    ensures |r| <= MaxLog
    ensures r[0] == entry
    ensures r[1..] == prev[..Min(|prev|, MaxLog - 1)]
  {
    var joined := [entry] + prev;
    if |joined| <= MaxLog then joined else joined[..MaxLog]
  }

  /** `h` in reverse order: the last element comes first. */
  function Reversed(h: seq<LogEntry>): (r: seq<LogEntry>)
    ensures |r| == |h|
    ensures forall i :: 0 <= i < |h| ==> r[i] == h[|h| - 1 - i]
  {
    if h == [] then [] else [h[|h| - 1]] + Reversed(h[..|h| - 1])
  }

  /**
   * What a log should show after the entries of `h` were added in order,
   * oldest first: the twenty most recent of them, newest first.
   */
  function Newest(h: seq<LogEntry>): (r: seq<LogEntry>)
    ensures |r| == Min(|h|, MaxLog)
    ensures forall i :: 0 <= i < |r| ==> r[i] == h[|h| - 1 - i]
  {
    var rev := Reversed(h);
    if |rev| <= MaxLog then rev else rev[..MaxLog]
  }

  /** One `addLog` keeps the log equal to the window of the twenty most recent entries. */
  lemma RolledNewest(h: seq<LogEntry>, e: LogEntry)
    ensures Rolled(e, Newest(h)) == Newest(h + [e])
  {
  }

  /** The log after adding `entries` (oldest first) to `log`, one `addLog` at a time. */
  function RollAll(entries: seq<LogEntry>, log: seq<LogEntry>): seq<LogEntry>
    decreases |entries|
  {
    if entries == [] then log
    else RollAll(entries[1..], Rolled(entries[0], log))
  }

  /**
   * From a log that shows the window of some earlier history, any run of
   * `addLog` calls leaves exactly the twenty most recent entries of the
   * whole history, newest first; in particular a 21st entry pushes out the
   * oldest one. The empty log is the window of the empty history.
   */
  lemma {:induction false} RollAllNewest(previous: seq<LogEntry>, entries: seq<LogEntry>)
    ensures RollAll(entries, Newest(previous)) == Newest(previous + entries)
    decreases |entries|
  {
    if entries == [] {
      assert previous + entries == previous;
    } else {
      RolledNewest(previous, entries[0]);
      RollAllNewest(previous + [entries[0]], entries[1..]);
      assert previous + [entries[0]] + entries[1..] == previous + entries;
    }
  }
}
