/**
 * The configurator store: the current building configuration, the display
 * state of the panels and viewport, and a linear undo/redo history kept in
 * step with the configuration. Every action runs to completion on a single
 * thread, so each is a method that updates the fields in place.
 */
module ConfiguratorStore {
  import opened Schema
  import opened Patch
  import opened ConfigEdit
  import opened History

  class Store {
    /** The default configuration of each template, supplied by the schema. */
    const createDefault: TemplateType -> BuildingConfig

    var config: Option<BuildingConfig>
    var selectedTemplate: Option<TemplateType>
    var activePanel: string
    var visualization: VisualizationSettings
    var viewMode: ViewMode
    var history: seq<BuildingConfig>
    var historyIndex: int

    /**
     * Either nothing is configured and the history is empty at index -1, or
     * the current configuration is the history entry at a valid index of a
     * history of at most `MaxHistory` entries.
     */
    ghost predicate Valid()
      reads this
    {
      || (config.None? && history == [] && historyIndex == -1)
      || (config.Some? && 0 <= historyIndex < |history| <= MaxHistory && history[historyIndex] == config.value)
    }

    /** What recording a snapshot needs: the index is -1 or within a history of at most `MaxHistory` entries. */
    ghost predicate Bounded()
      reads this
    {
      -1 <= historyIndex < |history| <= MaxHistory
    }

    /** There is an older snapshot to go back to. */
    predicate CanUndo()
      reads this
    {
      historyIndex > 0
    }

    /** There is a newer snapshot to go forward to. */
    predicate CanRedo()
      reads this
    {
      historyIndex < |history| - 1
    }

    /** The configuration became `c` and was recorded as the newest, current history entry. */
    twostate predicate Recorded(c: BuildingConfig)
      reads this
    {
      && -1 <= old(historyIndex) < |old(history)|
      && config == Some(c)
      && history == Record(old(history), old(historyIndex), c)
      && historyIndex == |history| - 1
    }

    constructor (createDefault: TemplateType -> BuildingConfig)
      ensures this.createDefault == createDefault
      ensures config == None && selectedTemplate == None
      ensures activePanel == "building" && visualization == DefaultVisualization && viewMode == Perspective3D
      ensures Complete(visualization)
      ensures history == [] && historyIndex == -1
      ensures Valid()
    {
      this.createDefault := createDefault;
      config := None;
      selectedTemplate := None;
      activePanel := "building";
      visualization := DefaultVisualization;
      viewMode := Perspective3D;
      history := [];
      historyIndex := -1;
      DefaultVisualizationComplete();
    }

    method SetSelectedTemplate(template: TemplateType)
      modifies this`selectedTemplate
      ensures selectedTemplate == Some(template)
      ensures old(Valid()) ==> Valid()
    {
      selectedTemplate := Some(template);
    }

    method InitializeBuilding(templateType: TemplateType)
      modifies this`config, this`selectedTemplate, this`history, this`historyIndex
      ensures config == Some(createDefault(templateType))
      ensures selectedTemplate == Some(templateType)
      ensures history == [createDefault(templateType)] && historyIndex == 0
      ensures Valid()
    {
      var c := createDefault(templateType);
      config := Some(c);
      selectedTemplate := Some(templateType);
      history := [c];
      historyIndex := 0;
    }

    /**
     * Records the current configuration: keeps the history up to and
     * including the current index, appends the configuration, drops the
     * oldest entry beyond `MaxHistory`, and makes the new entry current.
     * Does nothing when no configuration is set.
     */
    method SaveToHistory()
      requires Bounded()
      modifies this`history, this`historyIndex
      ensures Bounded()
      ensures config.None? ==> history == old(history) && historyIndex == old(historyIndex)
      ensures config.Some? ==> Recorded(config.value) && Valid()
    {
      if config.None? {
        return;
      }
      var newHistory := history[..historyIndex + 1];
      newHistory := newHistory + [config.value];
      if |newHistory| > MaxHistory {
        newHistory := newHistory[1..];
      }
      RecordBounded(history, historyIndex, config.value);
      history := newHistory;
      historyIndex := |newHistory| - 1;
    }

    /** Makes `c` the configuration and records it. */
    method Commit(c: BuildingConfig)
      requires Bounded()
      modifies this`config, this`history, this`historyIndex
      ensures Recorded(c) && Valid()
    {
      config := Some(c);
      SaveToHistory();
    }

    method UpdateDimensions(updates: DimensionsPatch)
      requires Valid()
      modifies this`config, this`history, this`historyIndex
      ensures Valid()
      ensures old(config).None? ==> unchanged(this)
      ensures old(config).Some? ==> Recorded(WithDimensions(old(config).value, updates))
    {
      if config.None? {
        return;
      }
      Commit(WithDimensions(config.value, updates));
    }

    method UpdateRoof(updates: RoofPatch)
      requires Valid()
      modifies this`config, this`history, this`historyIndex
      ensures Valid()
      ensures old(config).None? ==> unchanged(this)
      ensures old(config).Some? ==> Recorded(WithRoof(old(config).value, updates))
    {
      if config.None? {
        return;
      }
      Commit(WithRoof(config.value, updates));
    }

    method UpdateColors(updates: ColorsPatch)
      requires Valid()
      modifies this`config, this`history, this`historyIndex
      ensures Valid()
      ensures old(config).None? ==> unchanged(this)
      ensures old(config).Some? ==> Recorded(WithColors(old(config).value, updates))
    {
      if config.None? {
        return;
      }
      Commit(WithColors(config.value, updates));
    }

    method UpdateFrameType(frameType: string)
      requires Valid()
      modifies this`config, this`history, this`historyIndex
      ensures Valid()
      ensures old(config).None? ==> unchanged(this)
      ensures old(config).Some? ==> Recorded(WithFrameType(old(config).value, frameType))
    {
      if config.None? {
        return;
      }
      Commit(WithFrameType(config.value, frameType));
    }

    method UpdateCrane(capacity: real)
      requires Valid()
      modifies this`config, this`history, this`historyIndex
      ensures Valid()
      ensures old(config).None? ==> unchanged(this)
      ensures old(config).Some? ==> Recorded(WithCrane(old(config).value, capacity))
    {
      if config.None? {
        return;
      }
      Commit(WithCrane(config.value, capacity));
    }

    method AddOpening(opening: Opening)
      requires Valid()
      modifies this`config, this`history, this`historyIndex
      ensures Valid()
      ensures old(config).None? ==> unchanged(this)
      ensures old(config).Some? ==> Recorded(WithOpening(old(config).value, opening))
    {
      if config.None? {
        return;
      }
      Commit(WithOpening(config.value, opening));
    }

    method RemoveOpening(id: string)
      requires Valid()
      modifies this`config, this`history, this`historyIndex
      ensures Valid()
      ensures old(config).None? ==> unchanged(this)
      ensures old(config).Some? ==> Recorded(WithoutOpening(old(config).value, id))
    {
      if config.None? {
        return;
      }
      Commit(WithoutOpening(config.value, id));
    }

    method AddAccessory(accessory: Accessory)
      requires Valid()
      modifies this`config, this`history, this`historyIndex
      ensures Valid()
      ensures old(config).None? ==> unchanged(this)
      ensures old(config).Some? ==> Recorded(WithAccessory(old(config).value, accessory))
    {
      if config.None? {
        return;
      }
      Commit(WithAccessory(config.value, accessory));
    }

    method RemoveAccessory(id: string)
      requires Valid()
      modifies this`config, this`history, this`historyIndex
      ensures Valid()
      ensures old(config).None? ==> unchanged(this)
      ensures old(config).Some? ==> Recorded(WithoutAccessory(old(config).value, id))
    {
      if config.None? {
        return;
      }
      Commit(WithoutAccessory(config.value, id));
    }

    method SetActivePanel(panel: string)
      modifies this`activePanel
      ensures activePanel == panel
      ensures config == old(config) && history == old(history) && historyIndex == old(historyIndex)
      ensures old(Valid()) ==> Valid()
    {
      activePanel := panel;
    }

    method SetVisualization(updates: VisualizationPatch)
      modifies this`visualization
      ensures visualization == MergeVisualization(old(visualization), updates)
      ensures old(Complete(visualization)) ==> Complete(visualization)
      ensures config == old(config) && history == old(history) && historyIndex == old(historyIndex)
      ensures old(Valid()) ==> Valid()
    {
      visualization := MergeVisualization(visualization, updates);
    }

    method SetViewMode(mode: ViewMode)
      modifies this`viewMode
      ensures viewMode == mode
      ensures config == old(config) && history == old(history) && historyIndex == old(historyIndex)
      ensures old(Valid()) ==> Valid()
    {
      viewMode := mode;
    }

    /** Steps back to the previous snapshot; does nothing at the oldest one. */
    method Undo()
      requires Valid()
      modifies this`config, this`historyIndex
      ensures Valid()
      ensures history == old(history)
      ensures old(CanUndo()) ==> historyIndex == old(historyIndex) - 1 && config == Some(history[historyIndex])
      ensures !old(CanUndo()) ==> unchanged(this)
    {
      if historyIndex > 0 {
        config := Some(history[historyIndex - 1]);
        historyIndex := historyIndex - 1;
      }
    }

    /** Steps forward to the next snapshot; does nothing at the newest one. */
    method Redo()
      requires Valid()
      modifies this`config, this`historyIndex
      ensures Valid()
      ensures history == old(history)
      ensures old(CanRedo()) ==> historyIndex == old(historyIndex) + 1 && config == Some(history[historyIndex])
      ensures !old(CanRedo()) ==> unchanged(this)
    {
      if historyIndex < |history| - 1 {
        config := Some(history[historyIndex + 1]);
        historyIndex := historyIndex + 1;
      }
    }

    /** Returns the store to the state it had before any building was initialized. */
    method ResetConfig()
      modifies this`config, this`selectedTemplate, this`history, this`historyIndex
      ensures config == None && selectedTemplate == None
      ensures history == [] && historyIndex == -1
      ensures Valid()
    {
      config := None;
      selectedTemplate := None;
      history := [];
      historyIndex := -1;
    }
  }
}
