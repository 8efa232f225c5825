# Configurator store

A Dafny model of the client-side state store of a building configurator
(`client/src/lib/store.ts`). The store holds one current building
configuration, the display state of the panels (active panel, visualization
flags, view mode) and a linear undo/redo history of configuration snapshots.

- `Schema` — the configuration and its parts (dimensions, roof, colors,
  optional crane, openings, accessories), the view modes and the visualization
  flags with their defaults. The flags are a map from a `Flag` enumeration to
  booleans. The panels also set them by a computed key
  (`client/src/components/configurator/RightSidebar.tsx:100`), and merging is
  Dafny's map override `v + p`.
- `Patch` — partial updates as patch records whose fields are all optional,
  and the shallow merge `{ ...old, ...updates }` of each sub-record. Its laws:
  the empty patch changes nothing, merging the same patch twice is merging it
  once, and two merges in a row are one merge of the combined patch.
- `ConfigEdit` — the new configuration each update action builds: one part
  changes, all others stay. It also holds the crane rule (a crane exactly when
  the capacity is positive) and list removal by identifier (`RemoveById`). That
  removal keeps the other entries in order with their multiplicities, drops
  every duplicate, and undoes an append of a fresh identifier.
- `History` — the history as values. `Record` is the push rule: truncate the
  redo branch, append, evict the oldest entry beyond 50. `Replay` repeats it
  from a fresh history and `Window` keeps the newest 50 entries. The lemmas
  prove the bound, the undo-after-record property and the eviction.
- `ConfiguratorStore` — class `Store` with one method per action, each changing
  only the fields its frame names. The object invariant `Valid()` holds in two
  cases:
  - nothing is configured, the history is empty and the index is -1;
  - the configuration is `history[historyIndex]` with
    `0 <= historyIndex < |history| <= 50`.
- `StoreScenarios` — sequences of actions proved from the store's contracts
  alone:
  - undo after an edit restores the configuration;
  - undo and redo are inverses;
  - an edit after an undo discards the redo branch;
  - add-then-remove of a fresh opening restores the configuration;
  - an initialization followed by 60 edits leaves 50 entries. The oldest is
    the snapshot of the 11th edit, which is the 12th snapshot when the initial
    one is counted.

The default configuration of a template comes from a schema module that is not
part of this model. The store's constructor takes it as a function
`createDefault`.

## Model

| member | source | states |
|---|---|---|
| `Patch.Pick` | client/src/lib/store.ts:94 | a field merged with a patch entry takes the patch value when the entry is present and keeps its value otherwise |
| `Patch.PickOverride` | client/src/lib/store.ts:94 | merging one entry and then another equals merging the combined entry, in which the later one wins |
| `Patch.MergeDimensions` | client/src/lib/store.ts:94 | every dimensions field the patch names takes the patch value; every other field keeps its value |
| `Patch.MergeDimensionsLaws` | client/src/lib/store.ts:94 | the empty patch is the identity, the merge is idempotent, and two merges equal one merge of the combined patch |
| `Patch.MergeRoof` | client/src/lib/store.ts:106 | patched roof fields take the patch value and unpatched ones keep theirs, including clearing the optional orientation |
| `Patch.MergeRoofLaws` | client/src/lib/store.ts:106 | identity, idempotence and composition of roof merges |
| `Patch.MergeColors` | client/src/lib/store.ts:118 | patched color fields take the patch value, unpatched ones keep theirs |
| `Patch.MergeColorsLaws` | client/src/lib/store.ts:118 | identity, idempotence and composition of color merges |
| `Patch.MergeVisualization` | client/src/lib/store.ts:199-203 | every flag the patch names takes the patch value, every other flag keeps its value, no flag is lost, and settings with every flag stay so |
| `Patch.MergeVisualizationLaws` | client/src/lib/store.ts:201 | an empty flag patch changes nothing, the merge is idempotent, and two merges equal one merge of the combined patch |
| `ConfigEdit.WithDimensions` | client/src/lib/store.ts:92-95 | the dimensions are merged with the patch and every other part of the configuration is unchanged |
| `ConfigEdit.WithRoof` | client/src/lib/store.ts:104-107 | the roof is merged with the patch and every other part is unchanged |
| `ConfigEdit.WithColors` | client/src/lib/store.ts:116-119 | the colors are merged with the patch and every other part is unchanged |
| `ConfigEdit.WithFrameType` | client/src/lib/store.ts:128 | the frame type is the given one and every other part is unchanged |
| `ConfigEdit.CraneFor` | client/src/lib/store.ts:139 | there is a crane if and only if the capacity is positive, and then its capacity is the given one |
| `ConfigEdit.WithCrane` | client/src/lib/store.ts:137-140 | the crane is set or cleared by the capacity rule and every other part is unchanged |
| `ConfigEdit.RemoveById` | client/src/lib/store.ts:165 | the result is no longer than the input; an entry is in it exactly when it is in the input with a different identifier; no survivor carries the identifier |
| `ConfigEdit.RemoveByIdAppend` | client/src/lib/store.ts:165 | removal distributes over concatenation, so survivors keep their relative order |
| `ConfigEdit.RemoveByIdCount` | client/src/lib/store.ts:165 | each entry with another identifier keeps its multiplicity, and entries with the removed identifier are all gone, duplicates included |
| `ConfigEdit.RemoveByIdAbsent` | client/src/lib/store.ts:165 | a list in which no entry carries the identifier is returned unchanged |
| `ConfigEdit.RemoveByIdIdempotent` | client/src/lib/store.ts:165 | removing the same identifier twice equals removing it once |
| `ConfigEdit.AppendThenRemove` | client/src/lib/store.ts:152-165 | appending an entry with a fresh identifier and then removing that identifier gives back the list |
| `ConfigEdit.WithOpening` | client/src/lib/store.ts:152 | the opening is appended at the end of the openings and nothing else changes |
| `ConfigEdit.WithoutOpening` | client/src/lib/store.ts:165 | exactly the openings with a different identifier remain and nothing else changes |
| `ConfigEdit.WithAccessory` | client/src/lib/store.ts:178 | the accessory is appended at the end of the accessories and nothing else changes |
| `ConfigEdit.WithoutAccessory` | client/src/lib/store.ts:191 | exactly the accessories with a different identifier remain and nothing else changes |
| `ConfigEdit.AddThenRemoveOpening` | client/src/lib/store.ts:145-169 | adding an opening with a fresh identifier and removing it restores the configuration |
| `ConfigEdit.AddThenRemoveAccessory` | client/src/lib/store.ts:171-195 | adding an accessory with a fresh identifier and removing it restores the configuration |
| `Schema.DefaultVisualizationComplete` | client/src/lib/store.ts:51-65 | the default visualization settings give every flag a value |
| `History.Record` | client/src/lib/store.ts:231-240 | the recorded snapshot is last and the entry before it is the snapshot that was current; the entries before it are the newest of those up to the current index, so the redo branch is gone; the length is the index plus two, or one less when that would pass 50 |
| `History.RecordBounded` | client/src/lib/store.ts:234-236 | recording into a history of at most 50 entries leaves between 1 and 50 entries |
| `History.RecordThenUndo` | client/src/lib/store.ts:231-236 | after recording, the entry just before the new one is the snapshot that was current, which is what undo returns to |
| `History.Window` | client/src/lib/store.ts:234-236 | the newest 50 entries of a sequence, or all of them when there are no more |
| `History.RecordWindow` | client/src/lib/store.ts:231-236 | recording at the newest entry of the newest 50 snapshots gives the newest 50 of the sequence extended by the new snapshot |
| `History.RecordShort` | client/src/lib/store.ts:231-232 | below 50 entries, recording at the newest entry appends the snapshot |
| `History.RecordFull` | client/src/lib/store.ts:231-236 | with the newest 50 entries held, recording at the newest entry drops the oldest of them and appends the snapshot |
| `History.ReplayKeepsNewest` | client/src/lib/store.ts:227-242 | recording snapshots one after another from a one-entry history keeps exactly the newest 50 of them, in order |
| `History.WindowOfSixtyOne` | client/src/lib/store.ts:234-236 | of 61 snapshots, the newest 50 run from the 12th to the 61st |
| `History.SixtyRecordings` | client/src/lib/store.ts:234-236 | after 60 recordings the history has 50 entries, the oldest from the 11th recording and the newest from the 60th |
| `ConfiguratorStore.Store.constructor` | client/src/lib/store.ts:67-74 | the store starts with no configuration and no template, the "building" panel, the default flags, the 3D view, an empty history and index -1 |
| `ConfiguratorStore.Store.SetSelectedTemplate` | client/src/lib/store.ts:76 | only the selected template changes |
| `ConfiguratorStore.Store.InitializeBuilding` | client/src/lib/store.ts:78-86 | the configuration is the template's default, the template is selected, and the history is that one snapshot at index 0 |
| `ConfiguratorStore.Store.SaveToHistory` | client/src/lib/store.ts:227-242 | with no configuration nothing changes; otherwise the history becomes `Record` of the old history, index and the configuration, the index points at the new last entry, and the invariant holds |
| `ConfiguratorStore.Store.UpdateDimensions` | client/src/lib/store.ts:88-98 | with no configuration nothing changes; otherwise the merged configuration becomes current and is recorded |
| `ConfiguratorStore.Store.UpdateRoof` | client/src/lib/store.ts:100-110 | with no configuration nothing changes; otherwise the roof-merged configuration becomes current and is recorded |
| `ConfiguratorStore.Store.UpdateColors` | client/src/lib/store.ts:112-122 | with no configuration nothing changes; otherwise the color-merged configuration becomes current and is recorded |
| `ConfiguratorStore.Store.UpdateFrameType` | client/src/lib/store.ts:124-130 | with no configuration nothing changes; otherwise the configuration with the new frame type becomes current and is recorded |
| `ConfiguratorStore.Store.UpdateCrane` | client/src/lib/store.ts:132-143 | with no configuration nothing changes; otherwise the crane is set or cleared by the capacity rule and the result is recorded |
| `ConfiguratorStore.Store.AddOpening` | client/src/lib/store.ts:145-156 | with no configuration nothing changes; otherwise the opening is appended and the result is recorded |
| `ConfiguratorStore.Store.RemoveOpening` | client/src/lib/store.ts:158-169 | with no configuration nothing changes; otherwise every opening with that identifier is removed and the result is recorded |
| `ConfiguratorStore.Store.AddAccessory` | client/src/lib/store.ts:171-182 | with no configuration nothing changes; otherwise the accessory is appended and the result is recorded |
| `ConfiguratorStore.Store.RemoveAccessory` | client/src/lib/store.ts:184-195 | with no configuration nothing changes; otherwise every accessory with that identifier is removed and the result is recorded |
| `ConfiguratorStore.Store.SetActivePanel` | client/src/lib/store.ts:197 | the active panel is set and the configuration, history and index are unchanged |
| `ConfiguratorStore.Store.SetVisualization` | client/src/lib/store.ts:199-203 | the flags are merged with the patch and the configuration, history and index are unchanged |
| `ConfiguratorStore.Store.SetViewMode` | client/src/lib/store.ts:205 | the view mode is set and the configuration, history and index are unchanged |
| `ConfiguratorStore.Store.Undo` | client/src/lib/store.ts:207-215 | when the index is positive it moves back one and the configuration becomes that entry; otherwise nothing changes; the history never changes |
| `ConfiguratorStore.Store.Redo` | client/src/lib/store.ts:217-225 | when the index is below the last position it moves forward one and the configuration becomes that entry; otherwise nothing changes; the history never changes |
| `ConfiguratorStore.Store.ResetConfig` | client/src/lib/store.ts:244-251 | configuration and template are cleared, the history is empty and the index is -1 |
| `StoreScenarios.UndoAfterEdit` | client/src/lib/store.ts:207-215 | undo right after an edit restores the configuration the edit started from, and redo is then possible |
| `StoreScenarios.RedoAfterUndo` | client/src/lib/store.ts:207-225 | undo followed by redo gives back the same configuration, history and index |
| `StoreScenarios.UndoAfterRedo` | client/src/lib/store.ts:207-225 | redo followed by undo gives back the same configuration, history and index |
| `StoreScenarios.EditAfterUndo` | client/src/lib/store.ts:231-240 | an edit after an undo leaves nothing to redo, and the entries before the new one precede the undone snapshot |
| `StoreScenarios.AddThenRemove` | client/src/lib/store.ts:145-169 | adding and removing an opening with a fresh identifier restores the configuration and records two snapshots |
| `StoreScenarios.EditFrame` | client/src/lib/store.ts:124-130 | a frame-type edit on a history holding the newest snapshots of a run extends that run by the edited snapshot |
| `StoreScenarios.InitializeThenEditFrames` | client/src/lib/store.ts:227-242 | initialization followed by frame-type edits leaves the newest 50 snapshots with the last current; after 60 edits the oldest is the 11th edit's |

## Left out

- Default configurations: the schema's default factory is not part of this model. The store receives it as a function, so nothing is assumed about what a template's default contains.
- Schema: the shared schema is not part of this model. Only the configuration fields the panels read are modelled. Template types, frame types, roof types and slopes, opening types and color codes are plain strings, and an accessory is its identifier and a type string.
- Numbers are reals. JavaScript's NaN, infinities and negative zero are not modelled; for NaN, `capacity > 0` is false, so the store would clear the crane.
- Patch: a partial update that contains a key with the value `undefined` is modelled only for the optional roof orientation, where it clears the field. For the other fields that case breaks the schema's types, and a patch entry is treated as either absent or a value.
- Referential identity: values stand in for objects, so "an unchanged part is the same object" is stated as equality of values.
- Subscriptions and re-rendering of the state library, and the panel components that call the actions, are not modelled. Each action is a method on one object, called one at a time.
- ConfiguratorStore.Store.Undo, Redo and the update actions are specified only from states that satisfy `Valid()`. The constructor establishes it and every action keeps it. States the store cannot reach, such as an empty history holding a configuration, are not described.
- ConfiguratorStore.Store.SaveToHistory requires only that the index is -1 or within a history of at most 50 entries, because the update actions call it after replacing the configuration and before the history matches it again.
