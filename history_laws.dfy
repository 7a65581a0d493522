/** Properties that relate several history operations to one another. */
module HistoryLaws {
  import opened Options
  import opened History

  // ---------------------------------------------------------------------------
  // Undo and redo are inverse
  // ---------------------------------------------------------------------------

  /**
   * A successful undo is undone by one redo: the present and the future come back exactly,
   * and the past comes back except that its newest entry is re-minted as an "Undo point".
   */
  lemma RedoUndoes<T>(h: HistoryState<T>, s1: Stamp, s2: Stamp)
    requires CanUndo(h)
    ensures Undo(h, s1).Some?
    ensures var n := |h.past|;
      Redo(Undo(h, s1).value, s2)
        == Some(HistoryState(h.past[..n - 1] + [NewEntry(s2, h.past[n - 1].state, UndoPointLabel)], h.present, h.future))
    ensures Redo(Undo(h, s1).value, s2).value.present == h.present
    ensures |Redo(Undo(h, s1).value, s2).value.past| == |h.past|
    ensures |Redo(Undo(h, s1).value, s2).value.future| == |h.future|
  {
    var u := Undo(h, s1).value;
    assert u.future[1..] == h.future;
  }

  /** Symmetrically, a successful redo is undone by one undo. */
  lemma UndoRedoes<T>(h: HistoryState<T>, s1: Stamp, s2: Stamp)
    requires CanRedo(h)
    ensures Redo(h, s1).Some?
    ensures Undo(Redo(h, s1).value, s2)
        == Some(HistoryState(h.past, h.present, [NewEntry(s2, h.future[0].state, RedoPointLabel)] + h.future[1..]))
  {
    var r := Redo(h, s1).value;
    assert r.past[..|r.past| - 1] == h.past;
  }

  /** Undoing a push brings back the present the push replaced and leaves the pushed state redoable. */
  lemma UndoRevertsPush<T>(h: HistoryState<T>, newState: T, caption: string, maxSize: nat, s1: Stamp, s2: Stamp)
    ensures Undo(Push(h, newState, caption, maxSize, s1), s2).Some?
    ensures Undo(Push(h, newState, caption, maxSize, s1), s2).value.present == h.present
    ensures Undo(Push(h, newState, caption, maxSize, s1), s2).value.future == [NewEntry(s2, newState, RedoPointLabel)]
  {
  }

  // ---------------------------------------------------------------------------
  // Size conservation and the timeline bound
  // ---------------------------------------------------------------------------

  /** Undo, redo and a successful jump move entries between past and future without changing their total. */
  lemma MovesConserveSize<T>(h: HistoryState<T>, entryId: string, stamp: Stamp)
    ensures Undo(h, stamp).Some? ==> TimelineSize(Undo(h, stamp).value) == TimelineSize(h)
    ensures Redo(h, stamp).Some? ==> TimelineSize(Redo(h, stamp).value) == TimelineSize(h)
    ensures JumpTo(h, entryId, stamp).Some? ==> TimelineSize(JumpTo(h, entryId, stamp).value) == TimelineSize(h)
  {
  }

  /** The bound `|past| + |future| <= maxSize` holds after `clear` and every operation keeps it. */
  lemma BoundPreserved<T>(h: HistoryState<T>, maxSize: nat, newState: T, caption: string, entryId: string, stamp: Stamp)
    requires maxSize >= 1 && TimelineSize(h) <= maxSize
    ensures TimelineSize(Clear(h.present)) <= maxSize
    ensures TimelineSize(Push(h, newState, caption, maxSize, stamp)) <= maxSize
    ensures Undo(h, stamp).Some? ==> TimelineSize(Undo(h, stamp).value) <= maxSize
    ensures Redo(h, stamp).Some? ==> TimelineSize(Redo(h, stamp).value) <= maxSize
    ensures JumpTo(h, entryId, stamp).Some? ==> TimelineSize(JumpTo(h, entryId, stamp).value) <= maxSize
  {
    MovesConserveSize(h, entryId, stamp);
  }

  // ---------------------------------------------------------------------------
  // Repeated pushes keep the newest maxSize entries
  // ---------------------------------------------------------------------------

  /** One user edit: the new present, the caption for the entry, and the stamp the entry gets. */
  datatype Edit<T> = Edit(state: T, caption: string, stamp: Stamp)

  /** The history after pushing each edit in turn. */
  function PushAll<T>(h: HistoryState<T>, edits: seq<Edit<T>>, maxSize: nat): HistoryState<T>
    decreases |edits|
  {
    if edits == [] then h
    else PushAll(Push(h, edits[0].state, edits[0].caption, maxSize, edits[0].stamp), edits[1..], maxSize)
  }

  /** The entries the edits record, oldest first: each one holds the present the edit replaced. */
  function Recorded<T>(present: T, edits: seq<Edit<T>>): (r: seq<HistoryEntry<T>>)
    ensures |r| == |edits|
    decreases |edits|
  {
    if edits == [] then []
    else [NewEntry(edits[0].stamp, present, edits[0].caption)] + Recorded(edits[0].state, edits[1..])
  }

  lemma LastNOfLastN<X>(a: seq<X>, b: seq<X>, m: nat)
    ensures LastN(LastN(a, m) + b, m) == LastN(a + b, m)
  {
    if |a| > m {
      var a' := a[|a| - m..];
      assert a' + b == (a + b)[|a| - m..];
      var n := |a + b|;
      if |a' + b| > m {
        assert (a' + b)[|a' + b| - m..] == (a + b)[n - m..];
      }
    }
  }

  /** The entries recorded by a non-empty run of edits: the first edit's entry, then the rest. */
  lemma RecordedStep<T>(h: HistoryState<T>, edits: seq<Edit<T>>)
    requires edits != []
    ensures h.past + [NewEntry(edits[0].stamp, h.present, edits[0].caption)] + Recorded(edits[0].state, edits[1..])
         == h.past + Recorded(h.present, edits)
  {
  }

  /** The past part of `PushAllKeepsNewest`. */
  lemma {:induction false} PushAllPast<T>(h: HistoryState<T>, edits: seq<Edit<T>>, maxSize: nat)
    requires maxSize >= 1 && |h.past| <= maxSize
    ensures PushAll(h, edits, maxSize).past == LastN(h.past + Recorded(h.present, edits), maxSize)
    decreases |edits|
  {
    if edits == [] {
      assert h.past + Recorded(h.present, edits) == h.past;
    } else {
      var e := edits[0];
      var entry := NewEntry(e.stamp, h.present, e.caption);
      var h1 := Push(h, e.state, e.caption, maxSize, e.stamp);
      assert h1.past == LastN(h.past + [entry], maxSize);
      assert |h1.past| <= maxSize;
      PushAllPast(h1, edits[1..], maxSize);
      LastNOfLastN(h.past + [entry], Recorded(e.state, edits[1..]), maxSize);
      RecordedStep(h, edits);
    }
  }

  /** The present and future part of `PushAllKeepsNewest`. */
  lemma {:induction false} PushAllEnds<T>(h: HistoryState<T>, edits: seq<Edit<T>>, maxSize: nat)
    requires edits != []
    ensures PushAll(h, edits, maxSize).present == edits[|edits| - 1].state
    ensures PushAll(h, edits, maxSize).future == []
    decreases |edits|
  {
    var h1 := Push(h, edits[0].state, edits[0].caption, maxSize, edits[0].stamp);
    if edits[1..] != [] {
      PushAllEnds(h1, edits[1..], maxSize);
      assert edits[1..][|edits[1..]| - 1] == edits[|edits| - 1];
    }
  }

  /**
   * Pushing edits one after the other, starting within the bound, keeps exactly the newest
   * `maxSize` of the old entries followed by the recorded ones, and ends on the last edit.
   */
  lemma PushAllKeepsNewest<T>(h: HistoryState<T>, edits: seq<Edit<T>>, maxSize: nat)
    requires maxSize >= 1 && |h.past| <= maxSize
    ensures PushAll(h, edits, maxSize).past == LastN(h.past + Recorded(h.present, edits), maxSize)
    ensures |PushAll(h, edits, maxSize).past| == Min(|h.past| + |edits|, maxSize)
    ensures edits != [] ==> PushAll(h, edits, maxSize).present == edits[|edits| - 1].state
    ensures edits != [] ==> PushAll(h, edits, maxSize).future == []
  {
    PushAllPast(h, edits, maxSize);
    if edits != [] {
      PushAllEnds(h, edits, maxSize);
    }
  }

  /** Pushing more than `maxSize` edits onto an empty past leaves exactly the newest `maxSize` recorded entries. */
  lemma PushAllOverflow<T>(present: T, edits: seq<Edit<T>>, maxSize: nat)
    requires 1 <= maxSize < |edits|
    ensures var r := PushAll(Clear(present), edits, maxSize);
      && |r.past| == maxSize
      && r.past == Recorded(present, edits)[|edits| - maxSize..]
  {
    PushAllKeepsNewest(Clear(present), edits, maxSize);
    assert Clear(present).past + Recorded(present, edits) == Recorded(present, edits);
  }

  // ---------------------------------------------------------------------------
  // Walking through the timeline
  // ---------------------------------------------------------------------------

  /** Undo once per stamp; `None` as soon as one undo has nothing to do. */
  function UndoAll<T>(h: HistoryState<T>, stamps: seq<Stamp>): Option<HistoryState<T>>
    decreases |stamps|
  {
    if stamps == [] then Some(h)
    else
      match Undo(h, stamps[0])
      case None => None
      case Some(h1) => UndoAll(h1, stamps[1..])
  }

  /** Redo once per stamp; `None` as soon as one redo has nothing to do. */
  function RedoAll<T>(h: HistoryState<T>, stamps: seq<Stamp>): Option<HistoryState<T>>
    decreases |stamps|
  {
    if stamps == [] then Some(h)
    else
      match Redo(h, stamps[0])
      case None => None
      case Some(h1) => RedoAll(h1, stamps[1..])
  }

  /** `k` undos walk backwards through the past: the present becomes the `k`-th newest past state. */
  lemma {:induction false} UndoWalksBack<T>(h: HistoryState<T>, stamps: seq<Stamp>)
    requires 1 <= |stamps| <= |h.past|
    ensures var n, k := |h.past|, |stamps|;
      && UndoAll(h, stamps).Some?
      && UndoAll(h, stamps).value.present == h.past[n - k].state
      && UndoAll(h, stamps).value.past == h.past[..n - k]
      && |UndoAll(h, stamps).value.future| == |h.future| + k
    decreases |stamps|
  {
    var h1 := Undo(h, stamps[0]).value;
    if |stamps| > 1 {
      UndoWalksBack(h1, stamps[1..]);
      assert h1.past[..|h1.past| - (|stamps| - 1)] == h.past[..|h.past| - |stamps|];
    }
  }

  /** `k` redos walk forward through the future: the present becomes the `k`-th future state. */
  lemma {:induction false} RedoWalksForward<T>(h: HistoryState<T>, stamps: seq<Stamp>)
    requires 1 <= |stamps| <= |h.future|
    ensures var k := |stamps|;
      && RedoAll(h, stamps).Some?
      && RedoAll(h, stamps).value.present == h.future[k - 1].state
      && RedoAll(h, stamps).value.future == h.future[k..]
      && |RedoAll(h, stamps).value.past| == |h.past| + k
    decreases |stamps|
  {
    var h1 := Redo(h, stamps[0]).value;
    if |stamps| > 1 {
      RedoWalksForward(h1, stamps[1..]);
      assert h1.future[|stamps| - 2] == h.future[|stamps| - 1];
      assert h1.future[|stamps| - 1..] == h.future[|stamps|..];
    }
  }

  /**
   * Jumping back loses nothing: after a jump to the entry at index `i`, the `|past| - i` redos
   * that follow walk through the skipped states and land on the present the jump left, with
   * the old future redoable again.
   */
  lemma JumpIsReversible<T>(h: HistoryState<T>, entryId: string, s: Stamp, stamps: seq<Stamp>)
    requires JumpTo(h, entryId, s).Some?
    requires |stamps| == |h.past| - |JumpTo(h, entryId, s).value.past|
    ensures RedoAll(JumpTo(h, entryId, s).value, stamps).Some?
    ensures RedoAll(JumpTo(h, entryId, s).value, stamps).value.present == h.present
    ensures RedoAll(JumpTo(h, entryId, s).value, stamps).value.future == h.future
    ensures |RedoAll(JumpTo(h, entryId, s).value, stamps).value.past| == |h.past|
  {
    var j := JumpTo(h, entryId, s).value;
    var i := |j.past|;
    var skipped := h.past[i + 1..];
    assert |skipped| == |stamps| - 1;
    RedoWalksForward(j, stamps);
    assert j.future[|stamps| - 1] == NewEntry(s, h.present, CurrentStateLabel);
    assert j.future[|stamps|..] == h.future;
  }

  // ---------------------------------------------------------------------------
  // The linear-edit scenario
  // ---------------------------------------------------------------------------

  /**
   * Start from `clear(A)`, push B then C, and walk the timeline: undo twice and redo twice
   * come back to C.
   */
  lemma LinearEditScenario<T>(a: T, b: T, c: T, s1: Stamp, s2: Stamp, s3: Stamp, s4: Stamp, s5: Stamp, s6: Stamp)
    ensures var h2 := Push(Push(Clear(a), b, "edit1", DefaultMaxSize, s1), c, "edit2", DefaultMaxSize, s2);
      && h2.present == c
      && |h2.past| == 2 && h2.past[0].state == a && h2.past[1].state == b
      && Undo(h2, s3).value.present == b
      && Undo(Undo(h2, s3).value, s4).value.present == a
      && Redo(Undo(Undo(h2, s3).value, s4).value, s5).value.present == b
      && Redo(Redo(Undo(Undo(h2, s3).value, s4).value, s5).value, s6).value.present == c
  {
  }

  /**
   * The jump half of the scenario: jumping to A's entry from C. The first match wins, so this
   * holds even when B's entry was minted with the same id.
   */
  lemma JumpScenario<T>(a: T, b: T, c: T, s1: Stamp, s2: Stamp, s3: Stamp, s4: Stamp, s5: Stamp)
    requires s1.id != ""
    ensures var h2 := Push(Push(Clear(a), b, "edit1", DefaultMaxSize, s1), c, "edit2", DefaultMaxSize, s2);
      var j := JumpToHistory(h2, s1.id, s3);
      && j.Some?
      && j.value.present == a && j.value.past == []
      && |j.value.future| == 2
      && j.value.future[0].state == b
      && j.value.future[1] == NewEntry(s3, c, CurrentStateLabel)
      && Redo(j.value, s4).value.present == b
      && Redo(Redo(j.value, s4).value, s5).value.present == c
  {
    var h2 := Push(Push(Clear(a), b, "edit1", DefaultMaxSize, s1), c, "edit2", DefaultMaxSize, s2);
    assert h2.past[0].id == s1.id;
  }
}
