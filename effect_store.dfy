/**
 * `EffectProvider` of src/contexts/ThemeContext.tsx: one mutable history cell over
 * `EffectState`, replaced by every action. Each edit builds its new state with a function of
 * module Effects and pushes it; undo, redo and jumps keep the cell as it was when the
 * engine answers `None`.
 *
 * The clock reading and the random id suffix every minted entry needs are the `now` and
 * `random` parameters of the actions.
 */
module EffectStore {
  import opened Options
  import opened Ids
  import opened History
  import opened HistoryIdentity
  import HistoryLaws
  import opened Effects

  class EffectStore {
    /** `historyState`; its present is the editor's current `state`. */
    var history: HistoryState<EffectState>
    /** The process-wide id generator `createEntry` draws from. */
    const ids: IdGenerator

    /**
     * The store's invariant: at most `DefaultMaxSize` entries on both sides together, and
     * every entry carries a distinct id handed out by `ids`.
     */
    ghost predicate Valid()
      reads this, ids
    {
      && ids.Valid()
      && TimelineSize(history) <= DefaultMaxSize
      && UniqueIds(Timeline(history))
      && IdsWithin(Timeline(history), ids.IssuedIds())
    }

    /** The stamp the next minted entry receives. */
    ghost function NextStamp(now: nat, random: string): Stamp
      reads ids
    {
      Stamp(FormatId(now, ids.counter, random), now)
    }

    /** The initial cell: the loaded state with nothing to undo or redo. */
    constructor (initial: EffectState, ids: IdGenerator)
      requires ids.Valid()
      ensures Valid() && this.ids == ids
      ensures history == Clear(initial)
    {
      this.ids := ids;
      history := Clear(initial);
    }

    /** `canUndo`. */
    function CanUndo(): (b: bool)
      reads this
      ensures b <==> |history.past| > 0
    {
      History.CanUndo(history)
    }

    /** `canRedo`. */
    function CanRedo(): (b: bool)
      reads this
      ensures b <==> |history.future| > 0
    {
      History.CanRedo(history)
    }

    /** `getActiveEffectsCount`. */
    function GetActiveEffectsCount(): (n: nat)
      reads this
      ensures n <= 4
      ensures n == 0 <==> forall effect :: !IsActive(history.present.activeEffects, effect)
      ensures n == 4 <==> forall effect :: IsActive(history.present.activeEffects, effect)
      ensures var a := history.present.activeEffects; n == Bit(a.glow) + Bit(a.glass) + Bit(a.neomorph) + Bit(a.clay)
    {
      ActiveEffectsCount(history.present.activeEffects)
    }

    /** `pushHistory` = `pushToHistory(prev, newState, label)` with the default bound. */
    method PushHistory(newState: EffectState, caption: string, now: nat, random: string)
      requires Valid()
      modifies this, ids
      ensures Valid()
      ensures history == Push(old(history), newState, caption, DefaultMaxSize, old(NextStamp(now, random)))
      ensures history.present == newState && history.future == []
      ensures ids.counter == old(ids.counter) + 1 && ids.log == old(ids.log) + [Seed(now, random)]
    {
      var stamp := MintStamp(ids, now, random);
      PushKeepsIdsUnique(history, newState, caption, DefaultMaxSize, stamp, old(ids.IssuedIds()));
      history := Push(history, newState, caption, DefaultMaxSize, stamp);
    }

    /** `togglePower`. */
    method TogglePower(now: nat, random: string)
      requires Valid()
      modifies this, ids
      ensures Valid()
      ensures ids.counter == old(ids.counter) + 1 && ids.log == old(ids.log) + [Seed(now, random)]
      ensures history == Push(old(history), PowerToggled(old(history.present)),
                              PowerCaption(!old(history.present.powerOn)), DefaultMaxSize, old(NextStamp(now, random)))
      ensures history.present.powerOn == !old(history.present.powerOn)
      ensures history.present == old(history.present).(powerOn := history.present.powerOn)
    {
      var newState := PowerToggled(history.present);
      PushHistory(newState, PowerCaption(newState.powerOn), now, random);
    }

    /** `toggleEffect`: flips exactly one flag and pushes exactly one entry. */
    method ToggleEffect(effect: EffectType, now: nat, random: string)
      requires Valid()
      modifies this, ids
      ensures Valid()
      ensures ids.counter == old(ids.counter) + 1 && ids.log == old(ids.log) + [Seed(now, random)]
      ensures history == Push(old(history), EffectToggled(old(history.present), effect),
                              EffectCaption(effect, !IsActive(old(history.present.activeEffects), effect)),
                              DefaultMaxSize, old(NextStamp(now, random)))
      ensures IsActive(history.present.activeEffects, effect) == !IsActive(old(history.present.activeEffects), effect)
      ensures forall other :: other != effect ==>
                IsActive(history.present.activeEffects, other) == IsActive(old(history.present.activeEffects), other)
      ensures history.present == old(history.present).(activeEffects := history.present.activeEffects)
      ensures history.past[|history.past| - 1].state == old(history.present)
    {
      var newActive := !IsActive(history.present.activeEffects, effect);
      PushHistory(EffectToggled(history.present, effect), EffectCaption(effect, newActive), now, random);
    }

    /** `setThemeMode`: asking for the current mode changes nothing and mints no entry. */
    method SetThemeMode(mode: ThemeModeType, now: nat, random: string)
      requires Valid()
      modifies this, ids
      ensures Valid()
      ensures old(history.present.themeMode) == mode ==>
                history == old(history) && ids.counter == old(ids.counter) && ids.log == old(ids.log)
      ensures old(history.present.themeMode) != mode ==>
                && history == Push(old(history), WithThemeMode(old(history.present), mode), ThemeCaption(mode),
                                   DefaultMaxSize, old(NextStamp(now, random)))
                && ids.counter == old(ids.counter) + 1 && ids.log == old(ids.log) + [Seed(now, random)]
    {
      if history.present.themeMode == mode {
        return;
      }
      PushHistory(WithThemeMode(history.present, mode), ThemeCaption(mode), now, random);
    }

    /** `updateGlowSettings`; `key` is the first key of the partial update, which names the entry. */
    method UpdateGlowSettings(patch: GlowPatch, key: string, now: nat, random: string)
      requires Valid()
      modifies this, ids
      ensures Valid()
      ensures ids.counter == old(ids.counter) + 1 && ids.log == old(ids.log) + [Seed(now, random)]
      ensures history == Push(old(history), WithGlowPatch(old(history.present), patch),
                              SettingsCaption("Glow", key), DefaultMaxSize, old(NextStamp(now, random)))
    {
      PushHistory(WithGlowPatch(history.present, patch), SettingsCaption("Glow", key), now, random);
    }

    /** `updateBlurSettings`. */
    method UpdateBlurSettings(patch: BlurPatch, now: nat, random: string)
      requires Valid()
      modifies this, ids
      ensures Valid()
      ensures ids.counter == old(ids.counter) + 1 && ids.log == old(ids.log) + [Seed(now, random)]
      ensures history == Push(old(history), WithBlurPatch(old(history.present), patch),
                              BlurChangedCaption, DefaultMaxSize, old(NextStamp(now, random)))
    {
      PushHistory(WithBlurPatch(history.present, patch), BlurChangedCaption, now, random);
    }

    /** `updateGlassSettings`. */
    method UpdateGlassSettings(patch: GlassPatch, key: string, now: nat, random: string)
      requires Valid()
      modifies this, ids
      ensures Valid()
      ensures ids.counter == old(ids.counter) + 1 && ids.log == old(ids.log) + [Seed(now, random)]
      ensures history == Push(old(history), WithGlassPatch(old(history.present), patch),
                              SettingsCaption("Glass", key), DefaultMaxSize, old(NextStamp(now, random)))
    {
      PushHistory(WithGlassPatch(history.present, patch), SettingsCaption("Glass", key), now, random);
    }

    /** `updateNeomorphSettings`. */
    method UpdateNeomorphSettings(patch: NeomorphPatch, key: string, now: nat, random: string)
      requires Valid()
      modifies this, ids
      ensures Valid()
      ensures ids.counter == old(ids.counter) + 1 && ids.log == old(ids.log) + [Seed(now, random)]
      ensures history == Push(old(history), WithNeomorphPatch(old(history.present), patch),
                              SettingsCaption("Neomorph", key), DefaultMaxSize, old(NextStamp(now, random)))
    {
      PushHistory(WithNeomorphPatch(history.present, patch), SettingsCaption("Neomorph", key), now, random);
    }

    /** `updateClaySettings`. */
    method UpdateClaySettings(patch: ClayPatch, key: string, now: nat, random: string)
      requires Valid()
      modifies this, ids
      ensures Valid()
      ensures ids.counter == old(ids.counter) + 1 && ids.log == old(ids.log) + [Seed(now, random)]
      ensures history == Push(old(history), WithClayPatch(old(history.present), patch),
                              SettingsCaption("Clay", key), DefaultMaxSize, old(NextStamp(now, random)))
    {
      PushHistory(WithClayPatch(history.present, patch), SettingsCaption("Clay", key), now, random);
    }

    /** `resetBlurPosition`. */
    method ResetBlurPosition(now: nat, random: string)
      requires Valid()
      modifies this, ids
      ensures Valid()
      ensures ids.counter == old(ids.counter) + 1 && ids.log == old(ids.log) + [Seed(now, random)]
      ensures history == Push(old(history), BlurReset(old(history.present)),
                              BlurResetCaption, DefaultMaxSize, old(NextStamp(now, random)))
    {
      PushHistory(BlurReset(history.present), BlurResetCaption, now, random);
    }

    /** `resetToDefaults`: the defaults become the present, and the old present stays undoable. */
    method ResetToDefaults(now: nat, random: string)
      requires Valid()
      modifies this, ids
      ensures Valid()
      ensures ids.counter == old(ids.counter) + 1 && ids.log == old(ids.log) + [Seed(now, random)]
      ensures history == Push(old(history), DefaultEffectState, ResetCaption, DefaultMaxSize, old(NextStamp(now, random)))
    {
      PushHistory(DefaultEffectState, ResetCaption, now, random);
    }

    /** `undo` = `undoHistory(prev) || prev`; an id is minted only when there is something to undo. */
    method Undo(now: nat, random: string)
      requires Valid()
      modifies this, ids
      ensures Valid()
      ensures history == History.Undo(old(history), old(NextStamp(now, random))).GetOr(old(history))
      ensures ids.counter == old(ids.counter) + (if old(CanUndo()) then 1 else 0)
      ensures ids.log == old(ids.log) + (if old(CanUndo()) then [Seed(now, random)] else [])
      ensures !old(CanUndo()) ==> history == old(history)
    {
      if !CanUndo() {
        return;
      }
      var stamp := MintStamp(ids, now, random);
      UndoKeepsIdsUnique(history, stamp, old(ids.IssuedIds()));
      HistoryLaws.MovesConserveSize(history, "", stamp);
      history := History.Undo(history, stamp).value;
    }

    /** `redo` = `redoHistory(prev) || prev`; an id is minted only when there is something to redo. */
    method Redo(now: nat, random: string)
      requires Valid()
      modifies this, ids
      ensures Valid()
      ensures history == History.Redo(old(history), old(NextStamp(now, random))).GetOr(old(history))
      ensures ids.counter == old(ids.counter) + (if old(CanRedo()) then 1 else 0)
      ensures ids.log == old(ids.log) + (if old(CanRedo()) then [Seed(now, random)] else [])
      ensures !old(CanRedo()) ==> history == old(history)
    {
      if !CanRedo() {
        return;
      }
      var stamp := MintStamp(ids, now, random);
      RedoKeepsIdsUnique(history, stamp, old(ids.IssuedIds()));
      HistoryLaws.MovesConserveSize(history, "", stamp);
      history := History.Redo(history, stamp).value;
    }

    /**
     * `jumpToHistoryEntry` = `jumpToHistory(prev, id) || prev`: an empty id or one that no past
     * entry carries leaves the cell as it was and mints nothing.
     */
    method JumpToHistoryEntry(entryId: string, now: nat, random: string)
      requires Valid()
      modifies this, ids
      ensures Valid()
      ensures history == JumpToHistory(old(history), entryId, old(NextStamp(now, random))).GetOr(old(history))
      ensures (entryId == "" || FindEntryIndex(old(history.past), entryId) == -1) ==>
                history == old(history) && ids.counter == old(ids.counter) && ids.log == old(ids.log)
      ensures (entryId != "" && FindEntryIndex(old(history.past), entryId) != -1) ==>
                ids.counter == old(ids.counter) + 1 && ids.log == old(ids.log) + [Seed(now, random)]
    {
      if entryId == "" || FindEntryIndex(history.past, entryId) == -1 {
        return;
      }
      var stamp := MintStamp(ids, now, random);
      JumpKeepsIdsUnique(history, entryId, stamp, old(ids.IssuedIds()));
      HistoryLaws.MovesConserveSize(history, entryId, stamp);
      history := JumpTo(history, entryId, stamp).value;
    }

    /** `clearHistory`: keeps the present and forgets everything else. */
    method ClearHistory()
      requires Valid()
      modifies this
      ensures Valid()
      ensures history == Clear(old(history.present))
    {
      history := Clear(history.present);
    }
  }
}
