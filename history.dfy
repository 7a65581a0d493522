/**
 * The undo/redo/time-travel engine of src/hooks/useHistory.ts (HistoryOperations and
 * HistoryAnalyzer). Every operation takes a history value and returns a new one, or `None`
 * where the source returns `null` for "nothing to do".
 *
 * The entry an operation mints gets its id and its timestamp from `IdGenerator.generate()`
 * and `Date.now()`; here both arrive as one `Stamp` argument, and `MintStamp` is the
 * stateful step that produces it.
 */
module History {
  import opened Options
  import opened Ids

  /** One snapshot in the timeline. */
  datatype HistoryEntry<T> = HistoryEntry(id: string, timestamp: nat, caption: string, state: T)

  /** `past` is oldest first; `future` is nearest first (index 0 is the first redo target). */
  datatype HistoryState<T> = HistoryState(past: seq<HistoryEntry<T>>, present: T, future: seq<HistoryEntry<T>>)

  /** The id and the clock reading a new entry receives. */
  datatype Stamp = Stamp(id: string, timestamp: nat)

  /** `DEFAULT_CONFIG.maxSize`, the bound `pushToHistory` uses when its caller gives none. */
  const DefaultMaxSize: nat := 50

  const UndoPointLabel: string := "Undo point"
  const RedoPointLabel: string := "Redo point"
  const CurrentStateLabel: string := "Current state"

  /** The pure part of `createEntry`: an entry for `state` with the given caption and stamp. */
  function NewEntry<T>(stamp: Stamp, state: T, caption: string): HistoryEntry<T>
  {
    HistoryEntry(stamp.id, stamp.timestamp, caption, state)
  }

  /**
   * The stateful part of `createEntry`: asks the id generator for an id and reads the clock
   * (`now`). The id is one the generator has never handed out since its last reset.
   */
  method MintStamp(ids: IdGenerator, now: nat, random: string) returns (s: Stamp)
    requires ids.Valid()
    modifies ids
    ensures ids.Valid()
    ensures s == Stamp(FormatId(now, old(ids.counter), random), now)
    ensures s.id !in old(ids.IssuedIds()) && ids.IssuedIds() == old(ids.IssuedIds()) + {s.id}
    ensures ids.counter == old(ids.counter) + 1 && ids.log == old(ids.log) + [Seed(now, random)]
  {
    var id := ids.Generate(now, random);
    s := Stamp(id, now);
  }

  /** `HistoryAnalyzer.canUndo`. */
  function CanUndo<T>(h: HistoryState<T>): (b: bool)
    ensures b <==> h.past != []
  {
    |h.past| > 0
  }

  /** `HistoryAnalyzer.canRedo`. */
  function CanRedo<T>(h: HistoryState<T>): (b: bool)
    ensures b <==> h.future != []
  {
    |h.future| > 0
  }

  /** The number of entries held on both sides of `present`. */
  function TimelineSize<T>(h: HistoryState<T>): nat
  {
    |h.past| + |h.future|
  }

  function Min(a: int, b: int): int
  {
    if a <= b then a else b
  }

  /** The last `m` elements of `s`, or all of them when there are fewer. */
  function LastN<X>(s: seq<X>, m: nat): (r: seq<X>)
    ensures |r| == Min(|s|, m)
  {
    if |s| <= m then s else s[|s| - m..]
  }

  /**
   * JavaScript's `s.slice(-k)`: the last `k` elements; all of `s` when `k` exceeds its
   * length, and also when `k` is 0, because `-0` is `0` and `slice(0)` copies everything.
   */
  function SliceLast<X>(s: seq<X>, k: nat): (r: seq<X>)
    ensures k == 0 || k >= |s| ==> r == s
    ensures 0 < k < |s| ==> r == s[|s| - k..]
    ensures |r| == if k == 0 then |s| else Min(|s|, k)
    ensures |r| <= |s| && r == s[|s| - |r|..]
  {
    if k == 0 || k >= |s| then s else s[|s| - k..]
  }

  /** The bounding step of `push`: keep the newest `maxSize` entries; `maxSize == 0` keeps all. */
  function Trim<X>(entries: seq<X>, maxSize: nat): (r: seq<X>)
    ensures maxSize == 0 ==> r == entries
    ensures maxSize >= 1 ==> r == LastN(entries, maxSize)
  {
    if |entries| > maxSize then SliceLast(entries, maxSize) else entries
  }

  /**
   * `HistoryOperations.push`: records the current present (not `newState`) under `caption`,
   * makes `newState` the present and discards every redoable entry.
   */
  function Push<T>(h: HistoryState<T>, newState: T, caption: string, maxSize: nat, stamp: Stamp): (r: HistoryState<T>)
    ensures r.present == newState && r.future == []
    ensures |r.past| >= 1 && r.past[|r.past| - 1] == NewEntry(stamp, h.present, caption)
    ensures |r.past| <= |h.past| + 1
    ensures maxSize >= 1 ==> r.past == LastN(h.past + [NewEntry(stamp, h.present, caption)], maxSize)
    ensures maxSize == 0 ==> r.past == h.past + [NewEntry(stamp, h.present, caption)]
    ensures maxSize >= 1 ==> |r.past| == Min(|h.past| + 1, maxSize) && TimelineSize(r) <= maxSize
  {
    var newPast := h.past + [NewEntry(stamp, h.present, caption)];
    HistoryState(Trim(newPast, maxSize), newState, [])
  }

  /**
   * `HistoryOperations.undo`: `None` when there is nothing to undo; otherwise the newest past
   * state becomes the present and the old present becomes the first redo target.
   */
  function Undo<T>(h: HistoryState<T>, stamp: Stamp): (r: Option<HistoryState<T>>)
    ensures r.None? <==> !CanUndo(h)
    ensures r.Some? ==>
      && r.value.past == h.past[..|h.past| - 1]
      && r.value.present == h.past[|h.past| - 1].state
      && r.value.future == [NewEntry(stamp, h.present, RedoPointLabel)] + h.future
  {
    if !CanUndo(h) then None
    else
      var previous := h.past[|h.past| - 1];
      Some(HistoryState(h.past[..|h.past| - 1], previous.state, [NewEntry(stamp, h.present, RedoPointLabel)] + h.future))
  }

  /**
   * `HistoryOperations.redo`: `None` when there is nothing to redo; otherwise the nearest
   * future state becomes the present and the old present is appended to the past.
   */
  function Redo<T>(h: HistoryState<T>, stamp: Stamp): (r: Option<HistoryState<T>>)
    ensures r.None? <==> !CanRedo(h)
    ensures r.Some? ==>
      && r.value.past == h.past + [NewEntry(stamp, h.present, UndoPointLabel)]
      && r.value.present == h.future[0].state
      && r.value.future == h.future[1..]
  {
    if !CanRedo(h) then None
    else
      var next := h.future[0];
      Some(HistoryState(h.past + [NewEntry(stamp, h.present, UndoPointLabel)], next.state, h.future[1..]))
  }

  /** `HistoryAnalyzer.findEntryIndex`: the first index whose entry has the id, or -1. */
  function FindEntryIndex<T>(entries: seq<HistoryEntry<T>>, entryId: string): (r: int)
    ensures -1 <= r < |entries|
    ensures r == -1 <==> forall k :: 0 <= k < |entries| ==> entries[k].id != entryId
    ensures r >= 0 ==> entries[r].id == entryId && forall k :: 0 <= k < r ==> entries[k].id != entryId
  {
    if |entries| == 0 then -1
    else if entries[0].id == entryId then 0
    else
      var k := FindEntryIndex(entries[1..], entryId);
      if k == -1 then -1 else k + 1
  }

  /**
   * `HistoryOperations.jumpTo`: only `past` is searched, and the first entry with the id is
   * the target. Its state becomes the present; the entries after it, then the old present,
   * then the old future become the new future.
   */
  function JumpTo<T>(h: HistoryState<T>, entryId: string, stamp: Stamp): (r: Option<HistoryState<T>>)
    ensures r.None? <==> forall k :: 0 <= k < |h.past| ==> h.past[k].id != entryId
    ensures r.Some? ==>
      var i := |r.value.past|;
      && i < |h.past|
      && h.past[i].id == entryId
      && (forall k :: 0 <= k < i ==> h.past[k].id != entryId)
      && r.value.past == h.past[..i]
      && r.value.present == h.past[i].state
      && r.value.future == h.past[i + 1..] + [NewEntry(stamp, h.present, CurrentStateLabel)] + h.future
  {
    var i := FindEntryIndex(h.past, entryId);
    if i == -1 then None
    else
      Some(HistoryState(h.past[..i], h.past[i].state, h.past[i + 1..] + [NewEntry(stamp, h.present, CurrentStateLabel)] + h.future))
  }

  /**
   * The exported `jumpToHistory`: an empty id is refused before any search (JavaScript's
   * `!entryId`); otherwise it is `jumpTo`.
   */
  function JumpToHistory<T>(h: HistoryState<T>, entryId: string, stamp: Stamp): (r: Option<HistoryState<T>>)
    ensures r.None? <==> entryId == "" || forall k :: 0 <= k < |h.past| ==> h.past[k].id != entryId
    ensures r.Some? ==> r == JumpTo(h, entryId, stamp)
  {
    if entryId == "" then None else JumpTo(h, entryId, stamp)
  }

  /** `HistoryOperations.clear`: the same present with nothing to undo or redo. */
  function Clear<T>(present: T): (r: HistoryState<T>)
    ensures r.present == present && !CanUndo(r) && !CanRedo(r) && TimelineSize(r) == 0
  {
    HistoryState([], present, [])
  }
}
