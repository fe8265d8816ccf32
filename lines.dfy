/**
  The road's painted lines: one marking per slot of the line definition
  array, spread evenly across the road widened by the extra spacing, walked
  with the lines' snapping step rule into the entries "line_0", "line_1", ….
  An empty slot draws a solid line in the default material.
*/
module Lines {
  import opened Wrappers
  import opened Geometry
  import opened Meshes
  import opened RoadLayout
  import opened LineDefinitions
  import opened Dashes
  import opened Markings
  import opened MarkingOffsets

  /** The entry name prefix of the lines. */
  const LinePrefix := "line_"

  /**
    Line k of n over a road of total width `roadWidth`: the slot's dash
    spacing and fill ratio, spacing 0 and ratio 1 for an empty slot, and the
    slot's material, the default one when it sets none.
  */
  function LineMarking(def: Option<RoadLineDefinition>, k: int, n: nat, roadWidth: real): Marking {
    var pattern := if def.Some? then Pattern(def.value.dashSpacing, def.value.dashFillRatio) else Pattern(0.0, 1.0);
    var material := if def.Some? && def.value.material.Some? then def.value.material.value else DefaultMarkingMaterial;
    Marking(pattern, material, MarkingOffset(k, n, roadWidth))
  }

  /** Everything the two passes of the lines read. */
  function LineSet(st: RoadSettings, ls: MarkingSettings, defs: seq<Option<RoadLineDefinition>>): (r: MarkingSet)
    ensures |r.marks| == |defs| && r.rule == LineRule && r.prefix == LinePrefix
    ensures ls.Valid() ==> r.Valid()
  {
    var roadWidth := st.roadWidth + ls.extraSpacing;
    MarkingSet(LineRule, LinePrefix,
               seq(|defs|, k requires 0 <= k < |defs| => LineMarking(defs[k], k, |defs|, roadWidth)),
               ls.offset, ls.width, ls.textureRepeat)
  }

  /** Whether `BuildLines` draws anything: the feature is on and the definition array is present and not empty. */
  predicate DrawsLines(ls: MarkingSettings, defs: Option<seq<Option<RoadLineDefinition>>>) {
    ls.enabled && defs.Some? && |defs.value| > 0
  }

  /** The table after `BuildLines` over `table`: every line's finished entry, when the lines are drawn. */
  ghost function LinesTable(table: map<Key, SubMesh>, spline: Spline, st: RoadSettings, ls: MarkingSettings,
                            defs: Option<seq<Option<RoadLineDefinition>>>, m: Maths): map<Key, SubMesh>
    requires st.Valid() && ls.Valid()
  {
    if DrawsLines(ls, defs) then Overlay(table, LinePrefix, MarkingEntries(LineSet(st, ls, defs.value), PlannedLayout(spline, st, m), m))
    else table
  }

  /**
    The lines generator. Nothing is declared when the lines are off or the
    definition array is missing or empty. Otherwise it samples the layout as
    the road does and writes every line: declared with exactly the room its
    counted dashes need and filled to that capacity.
  */
  method BuildLines(builder: MeshBuilder, spline: Spline, st: RoadSettings, ls: MarkingSettings,
                    defs: Option<seq<Option<RoadLineDefinition>>>, m: Maths)
    requires builder.Valid() && st.Valid() && ls.Valid()
    modifies builder
    ensures builder.Valid()
    ensures builder.subMeshes == LinesTable(old(builder.subMeshes), spline, st, ls, defs, m)
    ensures builder.order == if DrawsLines(ls, defs) then OverlayOrder(old(builder.subMeshes), old(builder.order), LinePrefix, |defs.value|)
                             else old(builder.order)
    ensures builder.isDirty == old(builder.isDirty) && builder.castShadows == old(builder.castShadows)
    ensures builder.meshes == old(builder.meshes) && builder.collider == old(builder.collider)
  {
    if !ls.enabled || defs.None? || |defs.value| == 0 {
      return;
    }
    var layout := SampleLayout(spline, st, m);
    WriteMarkings(builder, LineSet(st, ls, defs.value), layout, m);
  }

  /**
    The lines lie evenly spread strictly inside the widened road, left to
    right in slot order: line k sits (k+1)·W/(n+1) − W/2 from the centre.
  */
  lemma LinesSpread(st: RoadSettings, ls: MarkingSettings, defs: seq<Option<RoadLineDefinition>>, k: int)
    requires 0 <= k < |defs| && st.roadWidth + ls.extraSpacing > 0.0
    ensures var w := st.roadWidth + ls.extraSpacing;
            var marks := LineSet(st, ls, defs).marks;
            && -w * 0.5 < marks[k].offset < w * 0.5
            && (k + 1 < |defs| ==> marks[k].offset < marks[k + 1].offset)
            && marks[k].offset == (k + 1) as real * (w / (|defs| + 1) as real) - w * 0.5
  {
    OffsetsSpread(k, |defs|, st.roadWidth + ls.extraSpacing);
  }

  /**
    An empty slot draws a solid line in the default material: every kept
    segment longer than the threshold is exactly one dash covering all of it.
  */
  lemma EmptySlotSolid(st: RoadSettings, ls: MarkingSettings, defs: seq<Option<RoadLineDefinition>>, k: int, pos: real, length: real)
    requires 0 <= k < |defs| && defs[k].None? && pos >= 0.0
    ensures var mark := LineSet(st, ls, defs).marks[k];
            var w := WalkSegment(LineRule, mark.pattern, pos, length);
            && mark.material == DefaultMarkingMaterial
            && |w.dashes| == (if length > MinRemaining then 1 else 0)
            && (length > MinRemaining ==> w.dashes[0] == Dash(pos, length))
  {
    SolidSegment(LineRule, Pattern(0.0, 1.0), pos, length);
  }
}
