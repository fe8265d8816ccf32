/**
  The road's lane markings: one marking per lane definition, spread evenly
  across the road widened by the extra spacing, walked with the lanes' exact
  step rule into the entries "lane_0", "lane_1", …. Unlike the lines, the
  lanes have their own mesh builder, which the road component creates,
  rebuilds and updates.
*/
module Lanes {
  import opened Wrappers
  import opened Geometry
  import opened Meshes
  import opened RoadLayout
  import opened Dashes
  import opened Markings
  import opened MarkingOffsets

  /** The entry name prefix of the lanes. */
  const LanePrefix := "lane_"

  /**
    The fields of a lane definition the generator reads: its material (which
    may be missing) and its dash spacing and fill ratio, read without any
    clamping.
  */
  datatype LaneDefinition = LaneDefinition(material: Option<Material>, dashSpacing: real, dashFillRatio: real)

  /** Lane k of n over a road of total width `roadWidth`: the definition's pattern and material, the default one when it sets none. */
  function LaneMarking(def: LaneDefinition, k: int, n: nat, roadWidth: real): Marking {
    var material := if def.material.Some? then def.material.value else DefaultMarkingMaterial;
    Marking(Pattern(def.dashSpacing, def.dashFillRatio), material, MarkingOffset(k, n, roadWidth))
  }

  /** Everything the two passes of the lanes read. */
  function LaneSet(st: RoadSettings, ls: MarkingSettings, defs: seq<LaneDefinition>): (r: MarkingSet)
    ensures |r.marks| == |defs| && r.rule == LaneRule && r.prefix == LanePrefix
    ensures ls.Valid() ==> r.Valid()
  {
    var roadWidth := st.roadWidth + ls.extraSpacing;
    MarkingSet(LaneRule, LanePrefix,
               seq(|defs|, k requires 0 <= k < |defs| => LaneMarking(defs[k], k, |defs|, roadWidth)),
               ls.offset, ls.width, ls.textureRepeat)
  }

  /** Whether `BuildLanes` draws anything: the feature is on and the definition array is present and not empty. */
  predicate DrawsLanes(ls: MarkingSettings, slots: Option<seq<Option<LaneDefinition>>>) {
    ls.enabled && slots.Some? && |slots.value| > 0
  }

  /** Whether every slot of the definition array holds a definition. */
  predicate AllPresent(slots: seq<Option<LaneDefinition>>) {
    forall k :: 0 <= k < |slots| ==> slots[k].Some?
  }

  /** The definitions of an array without empty slots. */
  function Definitions(slots: seq<Option<LaneDefinition>>): seq<LaneDefinition>
    requires AllPresent(slots)
  {
    seq(|slots|, k requires 0 <= k < |slots| => slots[k].value)
  }

  /**
    Whether `BuildLanes` throws: the lanes are drawn but some slot of the
    array is empty. The pre-pass reads every lane's dash spacing without a
    null check over every kept segment, and there is always at least one, so
    such a slot is always reached before anything is declared.
  */
  predicate LanesThrow(ls: MarkingSettings, slots: Option<seq<Option<LaneDefinition>>>) {
    DrawsLanes(ls, slots) && !AllPresent(slots.value)
  }

  /** The table after `BuildLanes` over `table`: every lane's finished entry, when the lanes are drawn without a throw. */
  ghost function LanesTable(table: map<Key, SubMesh>, spline: Spline, st: RoadSettings, ls: MarkingSettings,
                            slots: Option<seq<Option<LaneDefinition>>>, m: Maths): map<Key, SubMesh>
    requires st.Valid() && ls.Valid()
  {
    if DrawsLanes(ls, slots) && AllPresent(slots.value) then
      Overlay(table, LanePrefix, MarkingEntries(LaneSet(st, ls, Definitions(slots.value)), PlannedLayout(spline, st, m), m))
    else table
  }

  /** The enumeration order after `BuildLanes` over `table`. */
  function LanesOrder(table: map<Key, SubMesh>, order: seq<Key>, ls: MarkingSettings, slots: Option<seq<Option<LaneDefinition>>>): seq<Key> {
    if DrawsLanes(ls, slots) && AllPresent(slots.value) then OverlayOrder(table, order, LanePrefix, |slots.value|) else order
  }

  /**
    The lanes generator. Nothing is declared when the lanes are off or the
    definition array is missing or empty. An empty slot in the array makes
    the pre-pass throw before anything is declared: `thrown` reports it and
    the builder is left as it was. Otherwise it samples the layout as the
    road does and writes every lane: declared with exactly the room its
    counted dashes need and filled to that capacity.
  */
  method BuildLanes(builder: MeshBuilder, spline: Spline, st: RoadSettings, ls: MarkingSettings,
                    slots: Option<seq<Option<LaneDefinition>>>, m: Maths) returns (thrown: bool)
    requires builder.Valid() && st.Valid() && ls.Valid()
    modifies builder
    ensures thrown <==> LanesThrow(ls, slots)
    ensures builder.Valid()
    ensures builder.subMeshes == LanesTable(old(builder.subMeshes), spline, st, ls, slots, m)
    ensures builder.order == LanesOrder(old(builder.subMeshes), old(builder.order), ls, slots)
    ensures builder.isDirty == old(builder.isDirty) && builder.castShadows == old(builder.castShadows)
    ensures builder.meshes == old(builder.meshes) && builder.collider == old(builder.collider)
  {
    if !ls.enabled || slots.None? || |slots.value| == 0 {
      return false;
    }
    if !AllPresent(slots.value) {
      return true;
    }
    var layout := SampleLayout(spline, st, m);
    WriteMarkings(builder, LaneSet(st, ls, Definitions(slots.value)), layout, m);
    return false;
  }

  /** A throwing build leaves the table and its order exactly as they were. */
  lemma ThrowDeclaresNothing(table: map<Key, SubMesh>, order: seq<Key>, spline: Spline, st: RoadSettings,
                             ls: MarkingSettings, slots: Option<seq<Option<LaneDefinition>>>, m: Maths)
    requires st.Valid() && ls.Valid() && LanesThrow(ls, slots)
    ensures LanesTable(table, spline, st, ls, slots, m) == table
    ensures LanesOrder(table, order, ls, slots) == order
  {
  }

  /**
    The lanes lie evenly spread strictly inside the widened road, left to
    right in definition order: lane k sits (k+1)·W/(n+1) − W/2 from the centre.
  */
  lemma LanesSpread(st: RoadSettings, ls: MarkingSettings, defs: seq<LaneDefinition>, k: int)
    requires 0 <= k < |defs| && st.roadWidth + ls.extraSpacing > 0.0
    ensures var w := st.roadWidth + ls.extraSpacing;
            var marks := LaneSet(st, ls, defs).marks;
            && -w * 0.5 < marks[k].offset < w * 0.5
            && (k + 1 < |defs| ==> marks[k].offset < marks[k + 1].offset)
            && marks[k].offset == (k + 1) as real * (w / (|defs| + 1) as real) - w * 0.5
  {
    OffsetsSpread(k, |defs|, st.roadWidth + ls.extraSpacing);
  }

  /** No entry of a freshly built lanes table collides: every lane is declared without collision. */
  lemma LanesNeverCollide(spline: Spline, st: RoadSettings, ls: MarkingSettings, slots: Option<seq<Option<LaneDefinition>>>, m: Maths,
                          order: seq<Key>)
    requires st.Valid() && ls.Valid()
    requires Enumerates(LanesTable(map[], spline, st, ls, slots, m), order)
    ensures CollisionVertices(LanesTable(map[], spline, st, ls, slots, m), order, |order|) == []
  {
    var table := LanesTable(map[], spline, st, ls, slots, m);
    forall j | 0 <= j < |order|
      ensures !table[order[j]].Collides()
    {
      var key := order[j];
      assert key in table;
      assert DrawsLanes(ls, slots) && AllPresent(slots.value);
      var ms := LaneSet(st, ls, Definitions(slots.value));
      var layout := PlannedLayout(spline, st, m);
      OverlayLookup(map[], LanePrefix, MarkingEntries(ms, layout, m), key);
      EntryExact(ms, layout, m, key.index);
    }
    NoColliderIffNothingCollides(table, order, |order|);
  }

  /**
    The lanes builder's rebuild: the table, render meshes and collider are
    discarded and the lanes are written afresh. A throwing build ends the
    rebuild there, leaving the builder cleared. Otherwise every drawable
    entry becomes a render mesh, and no collider is made, as no lane
    collides.
  */
  method RebuildLanes(builder: MeshBuilder, spline: Spline, st: RoadSettings, ls: MarkingSettings,
                      slots: Option<seq<Option<LaneDefinition>>>, m: Maths) returns (thrown: bool)
    requires st.Valid() && ls.Valid()
    modifies builder
    ensures thrown <==> LanesThrow(ls, slots)
    ensures builder.Valid()
    ensures builder.subMeshes == LanesTable(map[], spline, st, ls, slots, m)
    ensures builder.order == LanesOrder(map[], [], ls, slots)
    ensures builder.meshes == if |builder.order| == 0 then [] else DrawList(builder.subMeshes, builder.order, |builder.order|)
    ensures builder.collider == None
    ensures builder.isDirty == old(builder.isDirty) && builder.castShadows == old(builder.castShadows)
  {
    builder.Clear();
    thrown := BuildLanes(builder, spline, st, ls, slots, m);
    if thrown {
      return;
    }
    builder.BuildModel();
    LanesNeverCollide(spline, st, ls, slots, m, builder.order);
    builder.BuildCollider();
  }

  /** `CreateLanes`: a fresh builder that casts no shadows, rebuilt at once; a throwing rebuild leaves it cleared. */
  method CreateLanes(spline: Spline, st: RoadSettings, ls: MarkingSettings, slots: Option<seq<Option<LaneDefinition>>>, m: Maths)
    returns (builder: MeshBuilder, thrown: bool)
    requires st.Valid() && ls.Valid()
    ensures fresh(builder) && builder.Valid()
    ensures thrown <==> LanesThrow(ls, slots)
    ensures builder.subMeshes == LanesTable(map[], spline, st, ls, slots, m) && builder.order == LanesOrder(map[], [], ls, slots)
    ensures builder.collider == None && !builder.isDirty && !builder.castShadows
  {
    builder := new MeshBuilder();
    builder.castShadows := false;
    thrown := RebuildLanes(builder, spline, st, ls, slots, m);
  }

  /**
    `UpdateLanes`: a dirty builder is rebuilt and marked clean; a clean one is
    left as it is. A throwing rebuild skips the reset of the flag, so the
    builder stays dirty and is rebuilt again on the next update.
  */
  method UpdateLanes(builder: MeshBuilder, spline: Spline, st: RoadSettings, ls: MarkingSettings,
                     slots: Option<seq<Option<LaneDefinition>>>, m: Maths) returns (thrown: bool)
    requires st.Valid() && ls.Valid()
    modifies builder
    ensures thrown <==> old(builder.isDirty) && LanesThrow(ls, slots)
    ensures builder.isDirty == thrown
    ensures old(builder.isDirty) ==> builder.Valid() && builder.subMeshes == LanesTable(map[], spline, st, ls, slots, m)
                                     && builder.order == LanesOrder(map[], [], ls, slots) && builder.collider == None
                                     && builder.castShadows == old(builder.castShadows)
    ensures !old(builder.isDirty) ==> unchanged(builder)
  {
    thrown := false;
    if builder.isDirty {
      thrown := RebuildLanes(builder, spline, st, ls, slots, m);
      if !thrown {
        builder.isDirty := false;
      }
    }
  }

  /** `RemoveLanes`: the lanes builder is cleared of its entries, render meshes and collider. */
  method RemoveLanes(builder: MeshBuilder)
    modifies builder
    ensures builder.Valid()
    ensures builder.subMeshes == map[] && builder.order == [] && builder.meshes == [] && builder.collider == None
  {
    builder.Clear();
  }
}
