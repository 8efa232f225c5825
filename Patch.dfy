/**
 * Partial updates and their shallow merge. A patch holds one optional value
 * per field of a record: `None` is a key the partial object leaves out, and
 * merging keeps the old value there, while `Some(v)` overrides it with `v`,
 * which is what `{ ...old, ...updates }` does to a flat record.
 */
module Patch {
  import opened Schema

  /** The value a field has after merging the patch entry `p` over the current value. */
  function Pick<T(==)>(p: Option<T>, current: T): (r: T)
    ensures Patched(p, current, r)
  {
    match p
    case Some(v) => v
    case None => current
  }

  /** The field-wise contract of a merge: a patched field takes the patch value, an unpatched one keeps its value. */
  predicate Patched<T(==)>(p: Option<T>, before: T, after: T)
  {
    if p.Some? then after == p.value else after == before
  }

  /** Two patches applied one after the other, as a single patch: the later entry wins. */
  function Override<T>(p: Option<T>, q: Option<T>): (r: Option<T>)
    ensures r.Some? <==> p.Some? || q.Some?
    ensures q.Some? ==> r == q
    ensures q.None? ==> r == p
  {
    if q.Some? then q else p
  }

  lemma PickOverride<T>(p: Option<T>, q: Option<T>, x: T)
    ensures Pick(q, Pick(p, x)) == Pick(Override(p, q), x)
  {
  }


  // ---------------------------------------------------------------- dimensions

  datatype DimensionsPatch = DimensionsPatch(
    width: Option<real>,
    length: Option<real>,
    baysPattern: Option<string>,
    eaveHeight: Option<real>)

  const NoDimensionsChange := DimensionsPatch(None, None, None, None)

  function MergeDimensions(d: Dimensions, p: DimensionsPatch): (r: Dimensions)
    ensures Patched(p.width, d.width, r.width)
    ensures Patched(p.length, d.length, r.length)
    ensures Patched(p.baysPattern, d.baysPattern, r.baysPattern)
    ensures Patched(p.eaveHeight, d.eaveHeight, r.eaveHeight)
  {
    Dimensions(
      Pick(p.width, d.width),
      Pick(p.length, d.length),
      Pick(p.baysPattern, d.baysPattern),
      Pick(p.eaveHeight, d.eaveHeight))
  }

  function CombineDimensions(p: DimensionsPatch, q: DimensionsPatch): DimensionsPatch
  {
    DimensionsPatch(
      Override(p.width, q.width),
      Override(p.length, q.length),
      Override(p.baysPattern, q.baysPattern),
      Override(p.eaveHeight, q.eaveHeight))
  }

  lemma MergeDimensionsLaws(d: Dimensions, p: DimensionsPatch, q: DimensionsPatch)
    ensures MergeDimensions(d, NoDimensionsChange) == d
    ensures MergeDimensions(MergeDimensions(d, p), p) == MergeDimensions(d, p)
    ensures MergeDimensions(MergeDimensions(d, p), q) == MergeDimensions(d, CombineDimensions(p, q))
  {
  }

  // ---------------------------------------------------------------------- roof

  datatype RoofPatch = RoofPatch(
    roofType: Option<string>,
    slope: Option<string>,
    orientation: Option<Option<string>>)   // Some(None) clears the optional field

  const NoRoofChange := RoofPatch(None, None, None)

  function MergeRoof(f: Roof, p: RoofPatch): (r: Roof)
    ensures Patched(p.roofType, f.roofType, r.roofType)
    ensures Patched(p.slope, f.slope, r.slope)
    ensures Patched(p.orientation, f.orientation, r.orientation)
  {
    Roof(
      Pick(p.roofType, f.roofType),
      Pick(p.slope, f.slope),
      Pick(p.orientation, f.orientation))
  }

  function CombineRoof(p: RoofPatch, q: RoofPatch): RoofPatch
  {
    RoofPatch(
      Override(p.roofType, q.roofType),
      Override(p.slope, q.slope),
      Override(p.orientation, q.orientation))
  }

  lemma MergeRoofLaws(f: Roof, p: RoofPatch, q: RoofPatch)
    ensures MergeRoof(f, NoRoofChange) == f
    ensures MergeRoof(MergeRoof(f, p), p) == MergeRoof(f, p)
    ensures MergeRoof(MergeRoof(f, p), q) == MergeRoof(f, CombineRoof(p, q))
  {
  }

  // -------------------------------------------------------------------- colors

  datatype ColorsPatch = ColorsPatch(
    wallPanels: Option<string>,
    roofPanels: Option<string>,
    accessories: Option<string>,
    flashing: Option<string>,
    basePlate: Option<string>,
    primaryStructure: Option<string>,
    secondaryStructure: Option<string>)

  const NoColorsChange := ColorsPatch(None, None, None, None, None, None, None)

  function MergeColors(c: Colors, p: ColorsPatch): (r: Colors)
    ensures Patched(p.wallPanels, c.wallPanels, r.wallPanels)
    ensures Patched(p.roofPanels, c.roofPanels, r.roofPanels)
    ensures Patched(p.accessories, c.accessories, r.accessories)
    ensures Patched(p.flashing, c.flashing, r.flashing)
    ensures Patched(p.basePlate, c.basePlate, r.basePlate)
    ensures Patched(p.primaryStructure, c.primaryStructure, r.primaryStructure)
    ensures Patched(p.secondaryStructure, c.secondaryStructure, r.secondaryStructure)
  {
    Colors(
      Pick(p.wallPanels, c.wallPanels),
      Pick(p.roofPanels, c.roofPanels),
      Pick(p.accessories, c.accessories),
      Pick(p.flashing, c.flashing),
      Pick(p.basePlate, c.basePlate),
      Pick(p.primaryStructure, c.primaryStructure),
      Pick(p.secondaryStructure, c.secondaryStructure))
  }

  function CombineColors(p: ColorsPatch, q: ColorsPatch): ColorsPatch
  {
    ColorsPatch(
      Override(p.wallPanels, q.wallPanels),
      Override(p.roofPanels, q.roofPanels),
      Override(p.accessories, q.accessories),
      Override(p.flashing, q.flashing),
      Override(p.basePlate, q.basePlate),
      Override(p.primaryStructure, q.primaryStructure),
      Override(p.secondaryStructure, q.secondaryStructure))
  }

  lemma MergeColorsLaws(c: Colors, p: ColorsPatch, q: ColorsPatch)
    ensures MergeColors(c, NoColorsChange) == c
    ensures MergeColors(MergeColors(c, p), p) == MergeColors(c, p)
    ensures MergeColors(MergeColors(c, p), q) == MergeColors(c, CombineColors(p, q))
  {
  }

  // ------------------------------------------------------------- visualization

  /** A partial set of flags; a flag outside its keys is left as it is. */
  type VisualizationPatch = map<Flag, bool>

  function MergeVisualization(v: VisualizationSettings, p: VisualizationPatch): (r: VisualizationSettings)
    ensures r.Keys == v.Keys + p.Keys
    ensures forall f :: f in p ==> r[f] == p[f]
    ensures forall f :: f in v && f !in p ==> r[f] == v[f]
    ensures Complete(v) ==> Complete(r)
  {
    v + p
  }

  lemma MergeVisualizationLaws(v: VisualizationSettings, p: VisualizationPatch, q: VisualizationPatch)
    ensures MergeVisualization(v, map[]) == v
    ensures MergeVisualization(MergeVisualization(v, p), p) == MergeVisualization(v, p)
    ensures MergeVisualization(MergeVisualization(v, p), q) == MergeVisualization(v, p + q)
  {
  }
}
