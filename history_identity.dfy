/** Entry ids in a timeline: they stay unique when every new entry gets an unused id. */
module HistoryIdentity {
  import opened Options
  import opened History

  /** Every entry the history holds, past then future. */
  function Timeline<T>(h: HistoryState<T>): seq<HistoryEntry<T>>
  {
    h.past + h.future
  }

  /** No two entries share an id. */
  ghost predicate UniqueIds<T>(entries: seq<HistoryEntry<T>>)
  {
    forall i, j :: 0 <= i < j < |entries| ==> entries[i].id != entries[j].id
  }

  /** Every entry's id is one of `issued`. */
  ghost predicate IdsWithin<T>(entries: seq<HistoryEntry<T>>, issued: set<string>)
  {
    forall e :: e in entries ==> e.id in issued
  }

  lemma UniqueWithout<T>(x: seq<HistoryEntry<T>>, y: HistoryEntry<T>, z: seq<HistoryEntry<T>>)
    requires UniqueIds(x + [y] + z)
    ensures UniqueIds(x + z)
  {
    var s, t := x + [y] + z, x + z;
    forall i, j | 0 <= i < j < |t|
      ensures t[i].id != t[j].id
    {
      var i' := if i < |x| then i else i + 1;
      var j' := if j < |x| then j else j + 1;
      assert t[i] == s[i'] && t[j] == s[j'];
    }
  }

  lemma UniqueWith<T>(x: seq<HistoryEntry<T>>, y: HistoryEntry<T>, z: seq<HistoryEntry<T>>)
    requires UniqueIds(x + z)
    requires forall e :: e in x + z ==> e.id != y.id
    ensures UniqueIds(x + [y] + z)
  {
    var s, t := x + [y] + z, x + z;
    forall i, j | 0 <= i < j < |s|
      ensures s[i].id != s[j].id
    {
      if i == |x| {
        assert s[j] == t[j - 1] && s[j] in t;
      } else if j == |x| {
        assert s[i] == t[i] && s[i] in t;
      } else {
        var i' := if i < |x| then i else i - 1;
        var j' := if j < |x| then j else j - 1;
        assert s[i] == t[i'] && s[j] == t[j'];
      }
    }
  }

  lemma UniqueSuffix<T>(s: seq<HistoryEntry<T>>, k: nat)
    requires UniqueIds(s) && k <= |s|
    ensures UniqueIds(s[k..])
  {
    var t := s[k..];
    forall i, j | 0 <= i < j < |t|
      ensures t[i].id != t[j].id
    {
      assert t[i] == s[k + i] && t[j] == s[k + j];
    }
  }

  /** A stamp whose id is not yet in use keeps a timeline's ids unique under push. */
  lemma PushKeepsIdsUnique<T>(h: HistoryState<T>, newState: T, caption: string, maxSize: nat, stamp: Stamp, issued: set<string>)
    requires UniqueIds(Timeline(h)) && IdsWithin(Timeline(h), issued) && stamp.id !in issued
    ensures UniqueIds(Timeline(Push(h, newState, caption, maxSize, stamp)))
    ensures IdsWithin(Timeline(Push(h, newState, caption, maxSize, stamp)), issued + {stamp.id})
  {
    var e := NewEntry(stamp, h.present, caption);
    var r := Push(h, newState, caption, maxSize, stamp);
    assert UniqueIds(h.past) by {
      assert forall i :: 0 <= i < |h.past| ==> h.past[i] == Timeline(h)[i];
    }
    assert forall x :: x in h.past ==> x in Timeline(h);
    UniqueWith(h.past, e, []);
    assert h.past + [e] + [] == h.past + [e];
    UniqueSuffix(h.past + [e], |h.past| + 1 - |r.past|);
    assert Timeline(r) == r.past;
  }

  /** Replacing one entry of the timeline by an entry with an unused id keeps ids unique. */
  lemma ReplaceKeepsIdsUnique<T>(x: seq<HistoryEntry<T>>, y: HistoryEntry<T>, z: seq<HistoryEntry<T>>, e: HistoryEntry<T>, issued: set<string>)
    requires UniqueIds(x + [y] + z) && IdsWithin(x + [y] + z, issued) && e.id !in issued
    ensures UniqueIds(x + [e] + z) && IdsWithin(x + [e] + z, issued + {e.id})
  {
    UniqueWithout(x, y, z);
    assert forall w :: w in x + z ==> w in x + [y] + z;
    UniqueWith(x, e, z);
  }

  /** A stamp whose id is not yet in use keeps a timeline's ids unique under undo. */
  lemma UndoKeepsIdsUnique<T>(h: HistoryState<T>, stamp: Stamp, issued: set<string>)
    requires UniqueIds(Timeline(h)) && IdsWithin(Timeline(h), issued) && stamp.id !in issued
    requires Undo(h, stamp).Some?
    ensures UniqueIds(Timeline(Undo(h, stamp).value))
    ensures IdsWithin(Timeline(Undo(h, stamp).value), issued + {stamp.id})
  {
    var n := |h.past|;
    var r := Undo(h, stamp).value;
    var e := NewEntry(stamp, h.present, RedoPointLabel);
    assert Timeline(h) == h.past[..n - 1] + [h.past[n - 1]] + h.future;
    ReplaceKeepsIdsUnique(h.past[..n - 1], h.past[n - 1], h.future, e, issued);
    assert Timeline(r) == h.past[..n - 1] + [e] + h.future;
  }

  /** A stamp whose id is not yet in use keeps a timeline's ids unique under redo. */
  lemma RedoKeepsIdsUnique<T>(h: HistoryState<T>, stamp: Stamp, issued: set<string>)
    requires UniqueIds(Timeline(h)) && IdsWithin(Timeline(h), issued) && stamp.id !in issued
    requires Redo(h, stamp).Some?
    ensures UniqueIds(Timeline(Redo(h, stamp).value))
    ensures IdsWithin(Timeline(Redo(h, stamp).value), issued + {stamp.id})
  {
    var r := Redo(h, stamp).value;
    var e := NewEntry(stamp, h.present, UndoPointLabel);
    assert Timeline(h) == h.past + [h.future[0]] + h.future[1..];
    ReplaceKeepsIdsUnique(h.past, h.future[0], h.future[1..], e, issued);
    assert Timeline(r) == h.past + [e] + h.future[1..];
  }

  /** A stamp whose id is not yet in use keeps a timeline's ids unique under a jump. */
  lemma JumpKeepsIdsUnique<T>(h: HistoryState<T>, entryId: string, stamp: Stamp, issued: set<string>)
    requires UniqueIds(Timeline(h)) && IdsWithin(Timeline(h), issued) && stamp.id !in issued
    requires JumpTo(h, entryId, stamp).Some?
    ensures UniqueIds(Timeline(JumpTo(h, entryId, stamp).value))
    ensures IdsWithin(Timeline(JumpTo(h, entryId, stamp).value), issued + {stamp.id})
  {
    var r := JumpTo(h, entryId, stamp).value;
    var i := |r.past|;
    var e := NewEntry(stamp, h.present, CurrentStateLabel);
    var x, y, z := h.past[..i], h.past[i + 1..], h.future;
    assert Timeline(h) == x + [h.past[i]] + (y + z);
    UniqueWithout(x, h.past[i], y + z);
    assert x + (y + z) == (x + y) + z;
    assert forall w :: w in (x + y) + z ==> w in Timeline(h);
    UniqueWith(x + y, e, z);
    assert Timeline(r) == (x + y) + [e] + z;
  }
}
