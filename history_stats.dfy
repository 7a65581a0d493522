/** `HistoryAnalyzer.getStats` / `getHistoryStats`: a read-only summary of a history value. */
module HistoryStatistics {
  import opened Options
  import opened History

  /** `oldestTimestamp` and `newestTimestamp` are `None` where the source reports `null`. */
  datatype HistoryStats = HistoryStats(
    pastCount: nat,
    futureCount: nat,
    totalSize: nat,
    oldestTimestamp: Option<nat>,
    newestTimestamp: Option<nat>)

  /** The timestamps of `entries` in order, without the zero ones (`.map(e => e.timestamp).filter(Boolean)`). */
  function NonZeroTimestamps<T>(entries: seq<HistoryEntry<T>>): (r: seq<nat>)
    ensures forall t :: t in r ==> t != 0
    ensures forall k :: 0 <= k < |entries| && entries[k].timestamp != 0 ==> entries[k].timestamp in r
    ensures forall t :: t in r ==> exists k :: 0 <= k < |entries| && entries[k].timestamp == t
  {
    if entries == [] then []
    else
      var rest := NonZeroTimestamps(entries[1..]);
      assert forall k :: 1 <= k < |entries| ==> entries[k] == entries[1..][k - 1];
      if entries[0].timestamp != 0 then [entries[0].timestamp] + rest else rest
  }

  /** `Math.min(...s)` on a non-empty list. */
  function MinOf(s: seq<nat>): (r: nat)
    requires |s| > 0
    ensures r in s && forall x :: x in s ==> r <= x
  {
    if |s| == 1 then s[0]
    else
      var m := MinOf(s[1..]);
      assert forall x :: x in s ==> x == s[0] || x in s[1..];
      if s[0] <= m then s[0] else m
  }

  /** `Math.max(...s)` on a non-empty list. */
  function MaxOf(s: seq<nat>): (r: nat)
    requires |s| > 0
    ensures r in s && forall x :: x in s ==> x <= r
  {
    if |s| == 1 then s[0]
    else
      var m := MaxOf(s[1..]);
      assert forall x :: x in s ==> x == s[0] || x in s[1..];
      if s[0] >= m then s[0] else m
  }

  /**
   * `HistoryAnalyzer.getStats`. The validity check of the exported `getHistoryStats` cannot
   * fail on a typed history value, so the wrapper is this function.
   */
  function GetStats<T>(h: HistoryState<T>): (r: HistoryStats)
    ensures r.pastCount == |h.past| && r.futureCount == |h.future|
    ensures r.totalSize == r.pastCount + r.futureCount
    ensures r.oldestTimestamp.None? <==> r.newestTimestamp.None?
    ensures r.oldestTimestamp.None? <==> forall k :: 0 <= k < |h.past + h.future| ==> (h.past + h.future)[k].timestamp == 0
    ensures r.oldestTimestamp.Some? ==>
      && 0 < r.oldestTimestamp.value <= r.newestTimestamp.value
      && (exists k :: 0 <= k < |h.past + h.future| && (h.past + h.future)[k].timestamp == r.oldestTimestamp.value)
      && (exists k :: 0 <= k < |h.past + h.future| && (h.past + h.future)[k].timestamp == r.newestTimestamp.value)
      && forall k :: 0 <= k < |h.past + h.future| && (h.past + h.future)[k].timestamp != 0 ==>
           r.oldestTimestamp.value <= (h.past + h.future)[k].timestamp <= r.newestTimestamp.value
  {
    var all := h.past + h.future;
    var stamps := NonZeroTimestamps(all);
    HistoryStats(
      |h.past|,
      |h.future|,
      |all|,
      if |stamps| > 0 then Some(MinOf(stamps)) else None,
      if |stamps| > 0 then Some(MaxOf(stamps)) else None)
  }
}
