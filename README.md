# Undo/redo history engine and effect store of a soft-UI effect editor

This project models, in Dafny, the state core of a browser editor for CSS "soft UI"
effects (glow, glass, neomorphism, claymorphism):

- **The history engine** (`src/hooks/useHistory.ts`). A history is a value
  `{past, present, future}` over an opaque snapshot type. `push`, `undo`, `redo`, `jumpTo`
  and `clear` each return a new history, or "nothing to do" (`null` in the source,
  `None` here). Module `History` holds the operations and `HistoryStatistics` the
  statistics projection. `HistoryLaws` relates the operations to one another: inverse
  laws, size conservation, bounded retention, and walks through the timeline.
  `HistoryIdentity` shows that ids stay unique when every new entry gets an unused id.
- **Id generation** (`IdGenerator`, module `Ids`). Ids are the text
  `<clock>-<counter>-<random>`. The counter is the state of an `IdGenerator` object. The
  module proves that two ids carrying different counter values differ, whatever the clock
  and the random suffix. So every id handed out since the last reset is new.
- **The keyboard rule** (`KeyboardShortcutManager`, module `Keyboard`). It is a function
  from a key event and the two availability flags to the effects of the handler: whether
  it calls `preventDefault()` and which handler it calls.
- **The effect store** (`EffectProvider` in `src/contexts/ThemeContext.tsx`). Class
  `EffectStore.EffectStore` holds the one mutable history cell, with one method per action.
  Module `Effects` holds the state records, their defaults, the partial updates and the pure
  new-state computation behind each action. The store's invariant says the cell holds at
  most 50 entries, all with distinct ids issued by the generator. Every action keeps it.
- **The theme store** (`ThemeProvider`, module `Theme`). It covers the nested partial
  merge of `updateTheme`, and `resetTheme`.

Modelling conventions:

- The clock (`Date.now()`) and the random id suffix (`Math.random()`) are parameters
  (`now`, `random`). The id and time a new entry receives travel as a `Stamp`.
- Numeric settings are `real`.
- The entry field `label` is called `caption`, because `label` is a Dafny keyword.
- A partial update (`Partial<...>`) is a record with one `Option` per field. `None` means
  the update does not mention the field.
- The history caption that `update*Settings` derives from `Object.keys(settings)[0]` comes
  in as the parameter `key`.

Three behaviours of `useHistory.ts` worth knowing:

- The keyboard handler calls `preventDefault()` on a recognised combination even when
  that action is unavailable. It only skips calling the handler.
- Trimming bounds only `past`. `future` stays within the bound only because undo, redo
  and jumps conserve `|past| + |future|` (`HistoryLaws.BoundPreserved`,
  `EffectStore.EffectStore.Valid`).
- A bound of 0 trims nothing (`slice(-0)` copies the whole array).

## Model

| member | source | states |
|---|---|---|
| `Ids.FormatIdSeparatesCounts` | src/hooks/useHistory.ts:74-78 | ids built from different counter values differ, whatever the timestamp and the random suffix |
| `Ids.DecimalInjective` | src/hooks/useHistory.ts:78 | different counter values have different decimal renderings inside the id |
| `Ids.IssuedDistinct` | src/hooks/useHistory.ts:68-86 | any two ids handed out between the same two resets are distinct |
| `Ids.IdGenerator.constructor` | src/hooks/useHistory.ts:69 | a new generator starts with counter 0 and has issued nothing |
| `Ids.IdGenerator.Generate` | src/hooks/useHistory.ts:74-79 | the id embeds the current counter; the counter goes up by one; the id is none of those issued since the last reset |
| `Ids.IdGenerator.Reset` | src/hooks/useHistory.ts:84-86 | the counter is back at 0 and the record of issued ids is empty |
| `History.MintStamp` | src/hooks/useHistory.ts:172-179 | a new entry's id comes from the generator, is unused so far, and its timestamp is the clock reading |
| `History.CanUndo` | src/hooks/useHistory.ts:146-148 | true iff past is non-empty |
| `History.CanRedo` | src/hooks/useHistory.ts:153-155 | true iff future is non-empty |
| `History.SliceLast` | src/hooks/useHistory.ts:194-196 | `slice(-k)` gives the last k elements, and the whole list when k is 0 or larger than the list |
| `History.Trim` | src/hooks/useHistory.ts:194-196 | a bound of 0 keeps everything; any other bound keeps the newest min(n, maxSize) entries |
| `History.Push` | src/hooks/useHistory.ts:184-203 | the new last past entry holds the old present and the caption; present becomes the new state; future is empty; past is the newest min(n+1, maxSize) of old past plus the entry, everything when maxSize is 0 |
| `History.Undo` | src/hooks/useHistory.ts:208-220 | none iff past is empty; otherwise present is the newest past state, past loses exactly that entry, future gains a "Redo point" entry for the old present at its front |
| `History.Redo` | src/hooks/useHistory.ts:225-237 | none iff future is empty; otherwise present is future[0]'s state, future drops its head, past gains an "Undo point" entry for the old present at its end |
| `History.FindEntryIndex` | src/hooks/useHistory.ts:160-165 | -1 iff no entry has the id; otherwise the first index whose entry has the id |
| `History.JumpTo` | src/hooks/useHistory.ts:242-260 | none iff no past entry has the id (future is not searched); otherwise, with i the first match, past is past[..i], present is past[i]'s state, future is past[i+1..] then a "Current state" entry for the old present then the old future |
| `History.JumpToHistory` | src/hooks/useHistory.ts:435-450 | an empty id gives none before any search; otherwise the result of jumpTo |
| `History.Clear` | src/hooks/useHistory.ts:265-271 | same present, nothing to undo or redo |
| `HistoryStatistics.NonZeroTimestamps` | src/hooks/useHistory.ts:131-132 | exactly the non-zero timestamps of the entries are kept |
| `HistoryStatistics.MinOf` | src/hooks/useHistory.ts:138 | the result is an element of the list and no larger than any element |
| `HistoryStatistics.MaxOf` | src/hooks/useHistory.ts:139 | the result is an element of the list and no smaller than any element |
| `HistoryStatistics.GetStats` | src/hooks/useHistory.ts:130-141 | counts are the list lengths and total their sum; oldest and newest are absent iff every timestamp is 0; otherwise both are non-zero timestamps of entries and bracket every non-zero one, so a timestamp of 0 is never reported |
| `HistoryLaws.RedoUndoes` | src/hooks/useHistory.ts:208-237 | redo after a successful undo restores present and future exactly and past up to its newest entry being re-minted as an "Undo point"; all lengths are equal |
| `HistoryLaws.UndoRedoes` | src/hooks/useHistory.ts:208-237 | undo after a successful redo restores past and present exactly, and future up to its head being re-minted as a "Redo point" |
| `HistoryLaws.UndoRevertsPush` | src/hooks/useHistory.ts:184-220 | undoing a push brings back the replaced present and leaves only the pushed state redoable |
| `HistoryLaws.MovesConserveSize` | src/hooks/useHistory.ts:208-260 | undo, redo and a successful jump keep the size of past plus future |
| `HistoryLaws.BoundPreserved` | src/hooks/useHistory.ts:184-271 | with maxSize at least 1, the size of past plus future stays at most maxSize under clear, push, undo, redo and jump once it holds |
| `HistoryLaws.PushAllKeepsNewest` | src/hooks/useHistory.ts:184-203 | pushing edits one by one keeps exactly the newest maxSize entries of the old past followed by the recorded ones, and ends on the last edit with an empty future |
| `HistoryLaws.PushAllPast` | src/hooks/useHistory.ts:190-196 | the past half of the repeated-push law: the newest maxSize of the old past followed by the recorded entries |
| `HistoryLaws.PushAllEnds` | src/hooks/useHistory.ts:198-202 | after a non-empty run of pushes the present is the last edit's state and the future is empty |
| `HistoryLaws.PushAllOverflow` | src/hooks/useHistory.ts:191-196 | pushing more than maxSize edits onto a cleared history leaves exactly maxSize entries, the most recent ones |
| `HistoryLaws.UndoWalksBack` | src/hooks/useHistory.ts:208-220 | k undos (k at most the past length) succeed and land on the k-th newest past state, leaving past[..n-k] |
| `HistoryLaws.RedoWalksForward` | src/hooks/useHistory.ts:225-237 | k redos (k at most the future length) succeed, land on future[k-1]'s state and leave future[k..] |
| `HistoryLaws.JumpIsReversible` | src/hooks/useHistory.ts:242-260 | after a jump to index i, exactly past-length minus i redos come back to the original present with the original future redoable |
| `HistoryLaws.LinearEditScenario` | src/hooks/useHistory.ts:184-237 | clear(A), push B, push C: past holds A then B; two undos reach B then A; two redos reach B then C |
| `HistoryLaws.JumpScenario` | src/hooks/useHistory.ts:242-260 | jumping from C to A's entry leaves an empty past and a future of B then a "Current state" entry for C; two redos reach B then C; this holds even when B's entry has the same id, because the first match wins |
| `HistoryIdentity.PushKeepsIdsUnique` | src/hooks/useHistory.ts:184-203 | with a stamp whose id is unused, push keeps all ids of the timeline distinct and issued |
| `HistoryIdentity.UndoKeepsIdsUnique` | src/hooks/useHistory.ts:208-220 | the same for undo |
| `HistoryIdentity.RedoKeepsIdsUnique` | src/hooks/useHistory.ts:225-237 | the same for redo |
| `HistoryIdentity.JumpKeepsIdsUnique` | src/hooks/useHistory.ts:242-260 | the same for a jump |
| `Keyboard.ToLower` | src/hooks/useHistory.ts:305 | the key is lower-cased character by character |
| `Keyboard.IsModifierPressed` | src/hooks/useHistory.ts:276-290 | "ctrl" needs Ctrl without Meta, "meta" needs Meta without Ctrl, "both" needs either; in every mode the result implies Ctrl or Meta is held |
| `Keyboard.HandleKeyDown` | src/hooks/useHistory.ts:276-320 | without the modifier nothing happens; preventDefault iff the modifier is held and the key is the undo key or a redo key; undo is called iff modifier, undo key, no Shift and canUndo; redo is called iff modifier, a redo combination that is not plain undo, and canRedo |
| `Keyboard.DefaultNeedsModifier` | src/hooks/useHistory.ts:285-286 | with the default shortcuts, an event without Ctrl or Meta is left untouched |
| `Keyboard.DefaultUndoCombination` | src/hooks/useHistory.ts:305-309 | modifier + z without Shift always prevents the default, and undoes only when undo is available |
| `Keyboard.DefaultRedoCombination` | src/hooks/useHistory.ts:312-318 | modifier + Shift + z or modifier + y always prevents the default, and redoes only when redo is available |
| `Keyboard.DefaultOtherKeysUntouched` | src/hooks/useHistory.ts:292-320 | any key other than z and y is left to the browser |
| `Keyboard.UpperZIsRedo` | src/hooks/useHistory.ts:312-318 | Ctrl + Shift with key "Z" is a redo |
| `Effects.Clamp` | src/contexts/ThemeContext.tsx:300-302 | the result never exceeds max; with min at most max it lies in [min, max], is the value when inside, and min or max when outside |
| `Effects.ClampIdempotent` | src/contexts/ThemeContext.tsx:300-302 | clamping twice is clamping once |
| `Effects.SetActive` | src/contexts/ThemeContext.tsx:369-372 | the named flag takes the value; every other flag is kept |
| `Effects.CountTrue` | src/contexts/ThemeContext.tsx:443 | the count is at most the length, 0 iff no flag is set, the length iff all are |
| `Effects.CountTrueIsMultiplicity` | src/contexts/ThemeContext.tsx:443 | the count is exactly the number of `true` values in the list |
| `Effects.ActiveEffectsCount` | src/contexts/ThemeContext.tsx:442-444 | the count equals the number of the four flags that are set; so it lies in [0, 4], is 0 iff none and 4 iff all are active |
| `Effects.ToggleMovesCountByOne` | src/contexts/ThemeContext.tsx:365-378 | toggling an effect moves the active count by exactly one, down when it was on and up when it was off |
| `Effects.ApplyGlowPatch` | src/contexts/ThemeContext.tsx:389 | each glow field takes the update's value when given and keeps the old one otherwise |
| `Effects.ApplyBlurPatch` | src/contexts/ThemeContext.tsx:398 | the same for the blur position |
| `Effects.ApplyGlassPatch` | src/contexts/ThemeContext.tsx:406 | the same for the glass settings |
| `Effects.ApplyNeomorphPatch` | src/contexts/ThemeContext.tsx:415 | the same for the neomorph settings |
| `Effects.ApplyClayPatch` | src/contexts/ThemeContext.tsx:424 | the same for the clay settings; an optional field the update gives becomes present |
| `Effects.PatchLaws` | src/contexts/ThemeContext.tsx:386-428 | an update that mentions nothing changes nothing; applying an update twice is applying it once |
| `Effects.PowerToggled` | src/contexts/ThemeContext.tsx:361 | only powerOn changes, and it flips |
| `Effects.EffectToggled` | src/contexts/ThemeContext.tsx:366-373 | exactly the named flag flips; all other flags and fields are kept |
| `Effects.ToggleTwiceRestores` | src/contexts/ThemeContext.tsx:365-378 | toggling the same effect twice gives back the state |
| `Effects.WithThemeMode` | src/contexts/ThemeContext.tsx:382 | only themeMode changes, to the requested mode |
| `Effects.WithGlowPatch` | src/contexts/ThemeContext.tsx:387-390 | only glowSettings changes, by the merge |
| `Effects.WithBlurPatch` | src/contexts/ThemeContext.tsx:396-399 | only blurSettings changes, by the merge |
| `Effects.WithGlassPatch` | src/contexts/ThemeContext.tsx:404-407 | only glassSettings changes, by the merge |
| `Effects.WithNeomorphPatch` | src/contexts/ThemeContext.tsx:413-416 | only neomorphSettings changes, by the merge |
| `Effects.WithClayPatch` | src/contexts/ThemeContext.tsx:422-425 | only claySettings changes, by the merge |
| `Effects.PowerCaption` | src/contexts/ThemeContext.tsx:362 | "Power " followed by "on" exactly when power is switched on, and "off" otherwise |
| `Effects.EffectCaption` | src/contexts/ThemeContext.tsx:376 | the effect's capitalised name followed by " enabled" exactly when the effect is switched on, and " disabled" otherwise |
| `Effects.EffectCaptionInjective` | src/contexts/ThemeContext.tsx:376 | two toggles recorded under the same caption concern the same effect and the same direction |
| `Effects.ThemeCaption` | src/contexts/ThemeContext.tsx:383 | "Theme: " followed by the mode's name |
| `Effects.ThemeCaptionInjective` | src/contexts/ThemeContext.tsx:383 | different modes give different captions |
| `Effects.SettingsCaption` | src/contexts/ThemeContext.tsx:392 | the prefix, a space, the key and " changed", with each part at its position |
| `Effects.SettingsCaptionInjective` | src/contexts/ThemeContext.tsx:392 | under the same prefix, the caption determines the key |
| `Effects.BlurReset` | src/contexts/ThemeContext.tsx:430-434 | the blur position becomes (-590, -1070) and nothing else changes |
| `EffectStore.EffectStore.constructor` | src/contexts/ThemeContext.tsx:316-323 | the cell starts as the loaded state with empty past and future, and the invariant holds |
| `EffectStore.EffectStore.CanUndo` | src/contexts/ThemeContext.tsx:343 | true iff past is non-empty |
| `EffectStore.EffectStore.CanRedo` | src/contexts/ThemeContext.tsx:344 | true iff future is non-empty |
| `EffectStore.EffectStore.GetActiveEffectsCount` | src/contexts/ThemeContext.tsx:442-444 | the number of effects active in the present: at most 4, 0 iff none, 4 iff all |
| `EffectStore.EffectStore.PushHistory` | src/contexts/ThemeContext.tsx:331-333 | the cell becomes push of the old cell with the default bound 50 and a freshly minted stamp; the invariant is kept |
| `EffectStore.EffectStore.TogglePower` | src/contexts/ThemeContext.tsx:360-363 | pushes the state with powerOn flipped and nothing else changed, captioned "Power on" or "Power off"; consumes exactly one id, recorded in the generator's log |
| `EffectStore.EffectStore.ToggleEffect` | src/contexts/ThemeContext.tsx:365-378 | pushes exactly one entry holding the old present; the new present differs only in the named flag, which flips; consumes exactly one id, recorded in the generator's log |
| `EffectStore.EffectStore.SetThemeMode` | src/contexts/ThemeContext.tsx:380-384 | the same mode leaves the cell and the id generator untouched; another mode pushes a state differing only in themeMode and consumes one id |
| `EffectStore.EffectStore.UpdateGlowSettings` | src/contexts/ThemeContext.tsx:386-393 | pushes the state with only glowSettings merged, captioned "Glow <key> changed"; consumes exactly one id, recorded in the generator's log |
| `EffectStore.EffectStore.UpdateBlurSettings` | src/contexts/ThemeContext.tsx:395-401 | pushes the state with only blurSettings merged, captioned "Blur position changed"; consumes exactly one id, recorded in the generator's log |
| `EffectStore.EffectStore.UpdateGlassSettings` | src/contexts/ThemeContext.tsx:403-410 | pushes the state with only glassSettings merged; consumes exactly one id, recorded in the generator's log |
| `EffectStore.EffectStore.UpdateNeomorphSettings` | src/contexts/ThemeContext.tsx:412-419 | pushes the state with only neomorphSettings merged; consumes exactly one id, recorded in the generator's log |
| `EffectStore.EffectStore.UpdateClaySettings` | src/contexts/ThemeContext.tsx:421-428 | pushes the state with only claySettings merged; consumes exactly one id, recorded in the generator's log |
| `EffectStore.EffectStore.ResetBlurPosition` | src/contexts/ThemeContext.tsx:430-436 | pushes the state with the default blur position; consumes exactly one id, recorded in the generator's log |
| `EffectStore.EffectStore.ResetToDefaults` | src/contexts/ThemeContext.tsx:438-440 | pushes the default effect state; consumes exactly one id, recorded in the generator's log |
| `EffectStore.EffectStore.Undo` | src/contexts/ThemeContext.tsx:335-337 | the cell becomes the engine's undo result, or stays exactly as it was when that is none; an id is consumed, and recorded in the generator's log, only on success |
| `EffectStore.EffectStore.Redo` | src/contexts/ThemeContext.tsx:339-341 | the same for redo |
| `EffectStore.EffectStore.JumpToHistoryEntry` | src/contexts/ThemeContext.tsx:348-350 | the cell becomes the jump result, or stays exactly as it was for an empty or unknown id, with no id consumed; a successful jump consumes exactly one |
| `EffectStore.EffectStore.ClearHistory` | src/contexts/ThemeContext.tsx:352-358 | keeps the present and empties past and future |
| `Theme.MergeColors` | src/contexts/ThemeContext.tsx:576 | each colour takes the update's value when given and keeps the old one otherwise |
| `Theme.MergeTheme` | src/contexts/ThemeContext.tsx:572-578 | top-level fields of the update override; colours are merged field by field, and kept whole when the update has none |
| `Theme.MergeThemeLaws` | src/contexts/ThemeContext.tsx:572-578 | an empty update is the identity; an update applied twice equals it applied once; a colour update naming every colour replaces the colours |
| `Theme.ThemeStore.constructor` | src/contexts/ThemeContext.tsx:545 | the theme cell starts as the loaded configuration |
| `Theme.ThemeStore.UpdateTheme` | src/contexts/ThemeContext.tsx:572-578 | the theme becomes the merge of the old theme and the update |
| `Theme.ThemeStore.ResetTheme` | src/contexts/ThemeContext.tsx:580-583 | the theme becomes the default configuration |

## Left out

- The sRGB/OKLCH conversion (`src/lib/color-conversion.ts`), `hexToHsl`/`hslToHex`, `formatOklch`, `getOklchColor` and `generateCSS`: floating-point arithmetic and string templating over it, which `real` arithmetic does not capture.
- The CSS and Tailwind code generators of the editor panels: string templating over floating point.
- `loadStateFromStorage`, `saveStateToStorage`, `exportState`, `importState`, the theme load from storage, and the storage removal in `resetTheme`: browser storage and JSON I/O. Both stores take their initial value as a constructor argument.
- `HistoryValidator.isValid/isValidEntry/sanitize`: runtime type checks that cannot fail on typed values. For the same reason, `pushToHistory`, `undoHistory`, `redoHistory`, `clearHistory`, `getHistoryStats` and `createHistoryEntry` are the operations themselves (`History.Push`, `History.Undo`, `History.Redo`, `History.Clear`, `HistoryStatistics.GetStats`, `History.MintStamp` with `History.NewEntry`). `jumpToHistory` adds an empty-id check and is modelled as `History.JumpToHistory`.
- `useKeyboardShortcuts` (window listener), `useDebounce` (timers), the `useHistory` hook, the context objects, memoisation and all components: React plumbing.
- `Date.now()` and `Math.random()`: parameters. `createEntry` reads the clock twice, once for the id and once for the timestamp, and the model takes one reading for both. Nothing says timestamps grow over time.
- `History.Push`: `maxSize` is a `nat`, so negative or fractional bounds are not modelled.
- `Keyboard.ToLower`: lower-cases ASCII letters only. Other Unicode case mappings are not modelled.
- `Keyboard.HandleKeyDown`: the unreachable `default` branch of `isModifierPressed` has no counterpart, because the modifier mode is a closed enumeration.
- Effects and Theme partial updates: a key present with the value `undefined`, which a JavaScript spread copies, is not modelled. A field is either given a value or not mentioned.
- `EffectStore.EffectStore.UpdateGlowSettings`, `UpdateGlassSettings`, `UpdateNeomorphSettings`, `UpdateClaySettings`: the caption key arrives as the parameter `key` instead of being read from the update's first key, because key order is not part of a record.
- `EffectStore.EffectStore`: every action reads the current cell. The source's callbacks read `state` from the last render, while its updaters read the latest `prev`. The difference (stale closures, batched updates, double-invoked updaters) is not modelled.
- `Ids.IdGenerator.Reset`: the store invariant assumes ids are not reset while a timeline holds entries. The store never calls it.
- `Ids.IdGenerator.Generate`: the counter is an unbounded `nat`. The source's counter is a JavaScript number, so from 2^53 on `counter++` stops increasing and ids could repeat. That limit is not modelled.
- Numbers (`Effects`, `Theme`): `real`, so NaN, infinities and rounding are not modelled.
