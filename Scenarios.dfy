/**
 * Sequences of store actions as a panel would issue them, each proved from
 * the contracts of the store's methods alone: undo after an edit, undo and
 * redo as inverses, an edit after an undo discarding the redo branch,
 * add-then-remove of an opening, and eviction of the oldest snapshots.
 */
module StoreScenarios {
  import opened Schema
  import opened Patch
  import opened ConfigEdit
  import opened History
  import opened ConfiguratorStore

  /** Undo right after an edit brings back the configuration the edit started from. */
  method UndoAfterEdit(s: Store, updates: DimensionsPatch)
    requires s.Valid() && s.config.Some?
    modifies s
    ensures s.Valid()
    ensures s.config == old(s.config)
    ensures s.CanRedo()
  {
    ghost var h, i, c := s.history, s.historyIndex, s.config.value;
    s.UpdateDimensions(updates);
    RecordThenUndo(h, i, WithDimensions(c, updates));
    s.Undo();
  }

  /** Redo after an undo gives back the exact state before the undo. */
  method RedoAfterUndo(s: Store)
    requires s.Valid() && s.CanUndo()
    modifies s
    ensures s.config == old(s.config) && s.history == old(s.history) && s.historyIndex == old(s.historyIndex)
  {
    s.Undo();
    s.Redo();
  }

  /** Undo after a redo gives back the exact state before the redo. */
  method UndoAfterRedo(s: Store)
    requires s.Valid() && s.CanRedo()
    modifies s
    ensures s.config == old(s.config) && s.history == old(s.history) && s.historyIndex == old(s.historyIndex)
  {
    s.Redo();
    s.Undo();
  }

  /**
   * An edit after an undo discards the undone snapshot and everything newer:
   * redo becomes impossible and the entries before the new one are the ones
   * that preceded the undone snapshot.
   */
  method EditAfterUndo(s: Store, frameType: string)
    requires s.Valid() && s.CanUndo()
    modifies s
    ensures s.Valid() && !s.CanRedo()
    ensures s.config.Some? && s.historyIndex == |s.history| - 1
    ensures |s.history| <= old(s.historyIndex) + 1
    ensures s.history[..|s.history| - 1] == old(s.history)[old(s.historyIndex) + 1 - |s.history| .. old(s.historyIndex)]
  {
    s.Undo();
    s.UpdateFrameType(frameType);
  }

  /** Adding an opening with a fresh identifier and removing it restores the configuration, in two recorded steps. */
  method AddThenRemove(s: Store, opening: Opening)
    requires s.Valid() && s.config.Some?
    requires forall k :: 0 <= k < |s.config.value.openings| ==> s.config.value.openings[k].id != opening.id
    modifies s
    ensures s.Valid()
    ensures s.config == old(s.config)
    ensures |s.history| == if old(s.historyIndex) + 3 <= MaxHistory then old(s.historyIndex) + 3 else MaxHistory
  {
    ghost var c := s.config.value;
    s.AddOpening(opening);
    s.RemoveOpening(opening.id);
    AddThenRemoveOpening(c, opening);
  }

  /** The snapshots a sequence of frame-type edits produces from the configuration `d`. */
  function FrameSnapshots(d: BuildingConfig, frameTypes: seq<string>): (r: seq<BuildingConfig>)
    ensures |r| == |frameTypes|
    ensures forall k :: 0 <= k < |r| ==> r[k].frameType == frameTypes[k]
  {
    seq(|frameTypes|, k requires 0 <= k < |frameTypes| => WithFrameType(d, frameTypes[k]))
  }

  /** The newest snapshots of `d` followed by `edits` are in the history, and the newest is current. */
  ghost predicate HoldsNewest(s: Store, d: BuildingConfig, edits: seq<BuildingConfig>)
    reads s
  {
    && s.Valid()
    && s.history == Window([d] + edits)
    && s.historyIndex == |s.history| - 1
    && s.config.Some? && s.config.value == d.(frameType := s.config.value.frameType)
  }

  /** One frame-type edit extends the snapshots the history holds by one. */
  method EditFrame(s: Store, ghost d: BuildingConfig, ghost edits: seq<BuildingConfig>, frameType: string)
    requires HoldsNewest(s, d, edits)
    modifies s
    ensures HoldsNewest(s, d, edits + [WithFrameType(d, frameType)])
  {
    ghost var current := s.config.value;
    s.UpdateFrameType(frameType);
    assert WithFrameType(current, frameType) == WithFrameType(d, frameType);
    RecordWindow([d] + edits, WithFrameType(d, frameType));
    assert ([d] + edits) + [WithFrameType(d, frameType)] == [d] + (edits + [WithFrameType(d, frameType)]);
  }

  /**
   * Initializing a building and then changing its frame type once per entry
   * of `frameTypes` leaves the newest `MaxHistory` snapshots in the history,
   * with the last one current.
   */
  method InitializeThenEditFrames(s: Store, templateType: TemplateType, frameTypes: seq<string>)
    modifies s
    ensures s.Valid()
    ensures s.history == Window([s.createDefault(templateType)] + FrameSnapshots(s.createDefault(templateType), frameTypes))
    ensures s.historyIndex == |s.history| - 1
    ensures |frameTypes| == 60 ==> |s.history| == MaxHistory && s.history[0].frameType == frameTypes[10]
  {
    s.InitializeBuilding(templateType);
    ghost var d := s.createDefault(templateType);
    ghost var snapshots := FrameSnapshots(d, frameTypes);
    assert [d] + snapshots[..0] == [d];
    for k := 0 to |frameTypes|
      invariant HoldsNewest(s, d, snapshots[..k])
    {
      EditFrame(s, d, snapshots[..k], frameTypes[k]);
      assert snapshots[..k] + [WithFrameType(d, frameTypes[k])] == snapshots[..k + 1];
    }
    assert snapshots[..|frameTypes|] == snapshots;
    if |frameTypes| == 60 {
      WindowOfSixtyOne([d] + snapshots);
    }
  }

}
