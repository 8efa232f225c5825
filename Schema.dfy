/**
 * The domain types the configurator store operates over. The shared schema
 * module of the application is not part of this model: the records below hold
 * the fields the store and its panels read, numbers are reals and the
 * enumerations that only travel through the store are opaque strings.
 */
module Schema {

  datatype Option<T> = None | Some(value: T)

  /** An identifier of a building template (an enumeration of the schema). */
  type TemplateType = string

  datatype Dimensions = Dimensions(
    width: real,
    length: real,
    baysPattern: string,
    eaveHeight: real)

  datatype Roof = Roof(
    roofType: string,
    slope: string,
    orientation: Option<string>)   // optional in the schema

  datatype Colors = Colors(
    wallPanels: string,
    roofPanels: string,
    accessories: string,
    flashing: string,
    basePlate: string,
    primaryStructure: string,
    secondaryStructure: string)

  datatype Crane = Crane(capacity: real)

  datatype Opening = Opening(id: string, openingType: string, wall: string)

  datatype Accessory = Accessory(id: string, accessoryType: string)

  /** One complete description of a configured building. */
  datatype BuildingConfig = BuildingConfig(
    templateType: TemplateType,
    dimensions: Dimensions,
    frameType: string,
    roof: Roof,
    colors: Colors,
    crane: Option<Crane>,          // absent means "no crane"
    openings: seq<Opening>,
    accessories: seq<Accessory>)

  /** The camera presets of the viewport. */
  datatype ViewMode = Perspective3D | PlusY | MinusY | PlusX | MinusX | MinusZ

  /** The flags that decide what the 3D viewport draws. */
  datatype Flag =
    | ShowEdges | ShowFaces | ShowPanels | ShowSolidWalls | ShowOpenings | ShowFrames | ShowPurlins
    | ShowGirts | ShowFlashing | ShowAccessories | ShowBasePlate | ShowDimensions | ShowButtons

  /** The visualization settings: a flat record of flags, keyed by flag. Not part of the undo history. */
  type VisualizationSettings = map<Flag, bool>

  /** Every flag has a value. */
  ghost predicate Complete(v: VisualizationSettings)
  {
    forall f: Flag :: f in v
  }

  /** The flags a fresh store starts with: everything on except purlins and girts. */
  const DefaultVisualization: VisualizationSettings := map[
    ShowEdges := true,
    ShowFaces := true,
    ShowPanels := true,
    ShowSolidWalls := true,
    ShowOpenings := true,
    ShowFrames := true,
    ShowPurlins := false,
    ShowGirts := false,
    ShowFlashing := true,
    ShowAccessories := true,
    ShowBasePlate := true,
    ShowDimensions := true,
    ShowButtons := true]

  /** The default settings give every flag a value. */
  lemma DefaultVisualizationComplete()
    ensures Complete(DefaultVisualization)
  {
    forall f: Flag
      ensures f in DefaultVisualization
    {
      match f
      case ShowEdges =>
      case ShowFaces =>
      case ShowPanels =>
      case ShowSolidWalls =>
      case ShowOpenings =>
      case ShowFrames =>
      case ShowPurlins =>
      case ShowGirts =>
      case ShowFlashing =>
      case ShowAccessories =>
      case ShowBasePlate =>
      case ShowDimensions =>
      case ShowButtons =>
    }
  }
}
