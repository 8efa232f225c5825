/**
 * The configuration each update action of the store builds from the current
 * one. Every edit returns a new configuration that differs from the old one in
 * exactly one part; the store then records it in the undo history.
 */
module ConfigEdit {
  import opened Schema
  import opened Patch

  // ------------------------------------------------------- sub-record merges

  function WithDimensions(c: BuildingConfig, p: DimensionsPatch): (r: BuildingConfig)
    ensures r.dimensions == MergeDimensions(c.dimensions, p)
    ensures r.templateType == c.templateType && r.frameType == c.frameType && r.roof == c.roof
    ensures r.colors == c.colors && r.crane == c.crane
    ensures r.openings == c.openings && r.accessories == c.accessories
  {
    c.(dimensions := MergeDimensions(c.dimensions, p))
  }

  function WithRoof(c: BuildingConfig, p: RoofPatch): (r: BuildingConfig)
    ensures r.roof == MergeRoof(c.roof, p)
    ensures r.templateType == c.templateType && r.frameType == c.frameType && r.dimensions == c.dimensions
    ensures r.colors == c.colors && r.crane == c.crane
    ensures r.openings == c.openings && r.accessories == c.accessories
  {
    c.(roof := MergeRoof(c.roof, p))
  }

  function WithColors(c: BuildingConfig, p: ColorsPatch): (r: BuildingConfig)
    ensures r.colors == MergeColors(c.colors, p)
    ensures r.templateType == c.templateType && r.frameType == c.frameType && r.dimensions == c.dimensions
    ensures r.roof == c.roof && r.crane == c.crane
    ensures r.openings == c.openings && r.accessories == c.accessories
  {
    c.(colors := MergeColors(c.colors, p))
  }

  // ------------------------------------------------------------------ scalars

  function WithFrameType(c: BuildingConfig, frameType: string): (r: BuildingConfig)
    ensures r.frameType == frameType
    ensures r.templateType == c.templateType && r.dimensions == c.dimensions && r.roof == c.roof
    ensures r.colors == c.colors && r.crane == c.crane
    ensures r.openings == c.openings && r.accessories == c.accessories
  {
    c.(frameType := frameType)
  }

  /** A crane of the given capacity when it is positive, and no crane otherwise (zero included). */
  function CraneFor(capacity: real): (r: Option<Crane>)
    ensures r.Some? <==> capacity > 0.0
    ensures r.Some? ==> r.value.capacity == capacity
  {
    if capacity > 0.0 then Some(Crane(capacity)) else None
  }

  function WithCrane(c: BuildingConfig, capacity: real): (r: BuildingConfig)
    ensures r.crane == CraneFor(capacity)
    ensures r.templateType == c.templateType && r.dimensions == c.dimensions && r.frameType == c.frameType
    ensures r.roof == c.roof && r.colors == c.colors
    ensures r.openings == c.openings && r.accessories == c.accessories
  {
    c.(crane := CraneFor(capacity))
  }

  // ------------------------------------------------------ filtering by identifier

  /**
   * The entries of `xs` whose identifier differs from `id`, in their original
   * order. Every entry carrying `id` goes, duplicates included.
   */
  function RemoveById<T(!new)>(xs: seq<T>, idOf: T -> string, id: string): (r: seq<T>)
    ensures |r| <= |xs|
    ensures forall x :: x in r <==> x in xs && idOf(x) != id
    ensures forall k :: 0 <= k < |r| ==> idOf(r[k]) != id
    decreases |xs|
  {
    if xs == [] then []
    else if idOf(xs[0]) == id then RemoveById(xs[1..], idOf, id)
    else [xs[0]] + RemoveById(xs[1..], idOf, id)
  }

  /** Filtering distributes over concatenation, so the relative order of the survivors is kept. */
  lemma {:induction false} RemoveByIdAppend<T(!new)>(a: seq<T>, b: seq<T>, idOf: T -> string, id: string)
    ensures RemoveById(a + b, idOf, id) == RemoveById(a, idOf, id) + RemoveById(b, idOf, id)
    decreases |a|
  {
    if a == [] {
      assert a + b == b;
    } else {
      assert (a + b)[0] == a[0];
      assert (a + b)[1..] == a[1..] + b;
      RemoveByIdAppend(a[1..], b, idOf, id);
    }
  }

  /** Every entry whose identifier differs keeps its multiplicity; entries carrying `id` are all gone. */
  lemma {:induction false} RemoveByIdCount<T(!new)>(xs: seq<T>, idOf: T -> string, id: string, x: T)
    ensures multiset(RemoveById(xs, idOf, id))[x] == if idOf(x) == id then 0 else multiset(xs)[x]
    decreases |xs|
  {
    if xs != [] {
      assert xs == [xs[0]] + xs[1..];
      RemoveByIdCount(xs[1..], idOf, id, x);
    }
  }

  /** A list none of whose entries carries `id` is left exactly as it is. */
  lemma {:induction false} RemoveByIdAbsent<T(!new)>(xs: seq<T>, idOf: T -> string, id: string)
    requires forall k :: 0 <= k < |xs| ==> idOf(xs[k]) != id
    ensures RemoveById(xs, idOf, id) == xs
    decreases |xs|
  {
    if xs != [] {
      RemoveByIdAbsent(xs[1..], idOf, id);
      assert xs == [xs[0]] + xs[1..];
    }
  }

  /** Removing the same identifier a second time changes nothing. */
  lemma RemoveByIdIdempotent<T(!new)>(xs: seq<T>, idOf: T -> string, id: string)
    ensures RemoveById(RemoveById(xs, idOf, id), idOf, id) == RemoveById(xs, idOf, id)
  {
    RemoveByIdAbsent(RemoveById(xs, idOf, id), idOf, id);
  }

  /** Appending an entry with a fresh identifier and then removing that identifier restores the list. */
  lemma AppendThenRemove<T(!new)>(xs: seq<T>, x: T, idOf: T -> string)
    requires forall k :: 0 <= k < |xs| ==> idOf(xs[k]) != idOf(x)
    ensures RemoveById(xs + [x], idOf, idOf(x)) == xs
  {
    RemoveByIdAppend(xs, [x], idOf, idOf(x));
    RemoveByIdAbsent(xs, idOf, idOf(x));
    assert RemoveById([x], idOf, idOf(x)) == RemoveById([x][1..], idOf, idOf(x));
    assert xs + [] == xs;
  }

  // --------------------------------------------------------- openings, accessories

  function OpeningId(o: Opening): string { o.id }

  function AccessoryId(a: Accessory): string { a.id }

  function WithOpening(c: BuildingConfig, o: Opening): (r: BuildingConfig)
    ensures r.openings == c.openings + [o]
    ensures r == c.(openings := r.openings)
  {
    c.(openings := c.openings + [o])
  }

  function WithoutOpening(c: BuildingConfig, id: string): (r: BuildingConfig)
    ensures forall o :: o in r.openings <==> o in c.openings && o.id != id
    ensures r == c.(openings := r.openings)
  {
    c.(openings := RemoveById(c.openings, OpeningId, id))
  }

  function WithAccessory(c: BuildingConfig, a: Accessory): (r: BuildingConfig)
    ensures r.accessories == c.accessories + [a]
    ensures r == c.(accessories := r.accessories)
  {
    c.(accessories := c.accessories + [a])
  }

  function WithoutAccessory(c: BuildingConfig, id: string): (r: BuildingConfig)
    ensures forall a :: a in r.accessories <==> a in c.accessories && a.id != id
    ensures r == c.(accessories := r.accessories)
  {
    c.(accessories := RemoveById(c.accessories, AccessoryId, id))
  }

  /** Adding an opening with a fresh identifier and removing it again gives back the configuration. */
  lemma AddThenRemoveOpening(c: BuildingConfig, o: Opening)
    requires forall k :: 0 <= k < |c.openings| ==> c.openings[k].id != o.id
    ensures WithoutOpening(WithOpening(c, o), o.id) == c
  {
    AppendThenRemove(c.openings, o, OpeningId);
  }

  /** The same round trip for accessories. */
  lemma AddThenRemoveAccessory(c: BuildingConfig, a: Accessory)
    requires forall k :: 0 <= k < |c.accessories| ==> c.accessories[k].id != a.id
    ensures WithoutAccessory(WithAccessory(c, a), a.id) == c
  {
    AppendThenRemove(c.accessories, a, AccessoryId);
  }
}
