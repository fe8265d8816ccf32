# RoadTool mesh assembly, modelled in Dafny

RoadTool is a set of s&box components that generate road geometry procedurally.

- **Roads.** A road follows a spline. It is built as a road ribbon, two sidewalks, painted road lines and lanes, and a row of lampposts.
- **Intersections.** An intersection is a rectangle with up to four exits or a circle with angular exits. Two revisions of the intersection component exist side by side.
- **Parking lots.** A parking lot is a row of spots with painted separator lines and optional curbs.

Every generator follows the same two-pass discipline against a shared `MeshBuilder`:

1. It counts how many vertices and indices a named submesh needs.
2. It declares that capacity with `InitSubmesh`.
3. It writes triangles and quads through the submesh's vertex and index cursors.

The builder then uploads every declared submesh as a render mesh. It merges the colliding ones into one collider, shifting their indices.

This project models that core and proves the properties below:

- **Mesh builder.** `mesh_builder.dfy` holds the submesh table and its cursors (`MeshBuilder` is a class whose methods update the table in place). It covers the collider merge and the dirty-flag update.
- **Sampling and simplification.** `segments.dfy` and `road_layout.dfy` cover the spline sampling schedule of both frame samplers, the turning-angle test, and the adaptive segment simplifier `DetectImportantSegments`.
- **Road and sidewalk.** `road.dfy`, `sidewalk.dfy` and `road_component.dfy` cover the road ribbon and sidewalk generators and the road component's rebuild cycle.
- **Road lines and lanes.** `line_definition.dfy`, `dashes.dfy`, `offsets.dfy`, `markings.dfy`, `lines.dfy` and `lanes.dfy` cover the dashed road lines and lanes. They share one marking engine:
  - a counting pass;
  - an emission pass that walks the same dash steps;
  - a per-line distance that persists across segments.

  The lines clamp each step to a minimum; the lanes do not.
- **Intersections.** `rectangle.dfy`, `circle.dfy`, `intersection_parts.dfy` and `intersection_component.dfy` cover the current intersection component. `legacy_intersection.dfy` covers the older revision, in `Code/RoadComponent/RoadIntersectionComponent.cs`. Its circle builds are the same code as the current revision's, so the same members model them.
- **Parking lot.** `parking_lot.dfy`, `parking_lines.dfy`, `parking_curbs.dfy` and `parking_component.dfy` cover the spot spacing, the separator lines with their optional caps, the simple and bevelled curbs, and the component's life cycle.
- **Lampposts.** `lampposts.dfy` covers the lamppost count, the sampling window and the side selection.

Lengths, distances and texture coordinates are `real`. Positions, normals and tangents are vectors of reals, and the model proves no geometric facts about them beyond where they are placed.

Some functions are parameters rather than definitions:

- the transcendental functions, vector normalisation and length, and yaw-to-direction, carried by a `Maths` value;
- the spline's samplers, carried by a `Spline` value.

Each parameter carries only the range facts the code relies on, collected in a `Sane()` predicate.

Every generator is specified by the sequence of faces (triangles and quads) it writes. Each one is proved to end with its submesh filled to exactly the declared capacity. The exception is the parking lines, which are proved to fill a prefix of the declared buffers.

Where the code and its informal description differ, the model follows the code:

- The parking lines are declared for every spot boundary but skip the capped-off ends, so their buffers are not always filled exactly (`ParkingLines.LinesEntryHolds`).
- `Code/RoadComponent/RoadComponent.Lines.cs` is never wired into the road component: `CreateLines` is never called. It is modelled as written anyway.

## Model

| member | source | states |
|---|---|---|
| `Geometry.Clamp` | Code/RoadComponent/RoadComponent.Road.cs:11 | the clamped value lies in [lo, hi], is the value itself when in range, and the nearer bound otherwise |
| `Geometry.Ceil` | Code/RoadComponent/RoadComponent.Road.cs:18 | the ceiling is the least integer not below x |
| `Geometry.Trunc` | Code/RoadComponent/RoadComponent.Lines.cs:131 | truncation rounds toward zero: the floor for non-negative x, never more than 1 away, and never past zero |
| `Geometry.FMod` | Code/RoadComponent/RoadComponent.Lines.cs:131 | C#'s float remainder by a positive divisor keeps the dividend's sign, lies strictly within one divisor of zero, and is the dividend less a truncated whole number of divisors |
| `Segments.StraightFlagsAgree` | Code/RoadComponent/RoadComponent.Utility.cs:178-181 | the straight flag of every interior boundary is set exactly when the turning angle there is below the threshold |
| `Segments.MaximalRun` | Code/RoadComponent/RoadComponent.Utility.cs:176-199 | a stretch of straight boundaries that cannot be extended on either side is the run the scan finds for each of its members |
| `Meshes.NewSubMesh` | Code/Utility/MeshBuilder.cs:44-60 | a declared entry has zeroed buffers of exactly the given totals, both cursors at zero, the given material and collision flag, and is well formed |
| `Meshes.SubMesh.WithTriangle` | Code/Utility/MeshBuilder.cs:64-91 | a triangle appends three vertices sharing one normal and the indices start, start+1, start+2; cursors advance by three, buffer sizes and flags are kept, well-formedness is preserved |
| `Meshes.SubMesh.WithQuad` | Code/Utility/MeshBuilder.cs:96-128 | a quad appends four vertices with their own normals and the triangles (0,1,2) and (0,2,3) over them; cursors advance by four and six, well-formedness is preserved |
| `Meshes.MeshBuilder.constructor` | Code/Utility/MeshBuilder.cs:30-40 | a new builder has an empty table, no render meshes, no collider, is not dirty and casts shadows |
| `Meshes.MeshBuilder.InitSubmesh` | Code/Utility/MeshBuilder.cs:44-60 | the entry is (re)declared fresh; a new name is appended to the enumeration order, an existing one keeps its place; nothing else changes |
| `Meshes.MeshBuilder.AddTriangle` | Code/Utility/MeshBuilder.cs:64-91 | writes the triangle into an existing entry and leaves the table unchanged when the name is unknown; requires room for three more vertices and indices, which every builder proves |
| `Meshes.MeshBuilder.AddQuad` | Code/Utility/MeshBuilder.cs:96-128 | writes the quad into an existing entry and leaves the table unchanged when the name is unknown; requires room for four more vertices and six more indices, which every builder proves |
| `Meshes.MeshBuilder.AddFlatQuad` | Code/Utility/MeshBuilder.cs:131-142 | the single-normal overload is the four-normal quad with the same normal at every corner |
| `Meshes.MeshBuilder.Clear` | Code/Utility/MeshBuilder.cs:176-182 | the collider, the render meshes and every entry are gone; the flags are kept |
| `Meshes.MeshBuilder.BuildModel` | Code/Utility/MeshBuilder.cs:186-232 | with an empty table the render meshes are left as they were; otherwise they are exactly the drawable entries in enumeration order |
| `Meshes.MeshBuilder.BuildCollider` | Code/Utility/MeshBuilder.cs:236-265 | with no gathered vertex the collider is left as it was; otherwise it is the positions of every colliding entry with indices shifted by the running vertex offset |
| `Meshes.StoreValid` | Code/Utility/MeshBuilder.cs:64-128 | writing into an existing entry keeps the table well formed |
| `Meshes.DeclareValid` | Code/Utility/MeshBuilder.cs:44-60 | declaring an entry keeps the table well formed and the order a duplicate-free enumeration of its names |
| `Meshes.DrawListSkipsEmpty` | Code/Utility/MeshBuilder.cs:197-213 | every render mesh carries the whole buffers and material of a drawable entry, and an entry yields a render mesh if and only if it declared at least one vertex and one index |
| `Meshes.CollisionIndicesInRange` | Code/Utility/MeshBuilder.cs:244-253 | the running offset equals the number of gathered positions, so every shifted index names a gathered position |
| `Meshes.NoColliderIffNothingCollides` | Code/Utility/MeshBuilder.cs:244-256 | no position is gathered if and only if no entry both has collision and declares a vertex |
| `Meshes.DrawList` | Code/Utility/MeshBuilder.cs:185-213 | the render meshes of the first n entries: at most one per entry |
| `Meshes.CollisionVertices` | Code/Utility/MeshBuilder.cs:236-256 | the positions gathered from the first n entries number exactly the running vertex offset the indices are shifted by |
| `Meshes.FacesIndices` | Code/Utility/MeshBuilder.cs:64-128 | the indices of a face list, face by face offset by the vertices before it, all name one of the list's own vertices |
| `Meshes.QuadCounts` | Code/Utility/MeshBuilder.cs:96-128 | n quads take 4n vertices and 6n indices |
| `Meshes.TriCounts` | Code/Utility/MeshBuilder.cs:64-91 | n triangles take 3n vertices and 3n indices |
| `Meshes.AppendFace` | Code/Utility/MeshBuilder.cs:64-128 | writing the next face after the contents of the faces before it yields the contents of the longer list |
| `Meshes.FullHolds` | Code/Utility/MeshBuilder.cs:44-60 | an entry that holds exactly a face list and is filled to its declared totals is the unique filled entry: nothing is left unwritten |
| `Meshes.PartialComplete` | Code/Utility/MeshBuilder.cs:44-128 | declaring an entry with a face list's totals and writing every face in turn leaves exactly the filled entry |
| `Meshes.Emit` | Code/Utility/MeshBuilder.cs:64-128 | writing one face changes only that entry, by exactly that face |
| `RoadLayout.RoadSettings.SetRoadPrecision` | Code/RoadComponent/RoadComponent.Road.cs:11 | the precision setter keeps the value within [1, 10000], stores an in-range value unchanged and touches no other setting |
| `RoadLayout.RoadSettings.SetRoadTextureRepeat` | Code/RoadComponent/RoadComponent.Road.cs:12 | the texture-repeat setter keeps the value within [1, 100000], stores an in-range value unchanged and touches no other setting |
| `RoadLayout.RoadSettings.SetSidewalkTextureRepeat` | Code/RoadComponent/RoadComponent.Sidewalk.cs:13 | the sidewalk texture-repeat setter keeps the value within [1, 100000], stores an in-range value unchanged and touches no other setting |
| `RoadLayout.DefaultsValid` | Code/RoadComponent/RoadComponent.Road.cs:9-12 | the property defaults of a new road lie within the ranges the setters keep |
| `RoadLayout.PlannedLayout` | Code/RoadComponent/RoadComponent.Road.cs:18-42 | the generators' preamble yields at least two segments, one frame per boundary and a kept list from 0 to n; with simplification off every boundary is kept |
| `RoadLayout.SampleFrames` | Code/RoadComponent/RoadComponent.Road.cs:21-23 | the frames are those of the chosen sampling mode |
| `RoadLayout.SampleLayout` | Code/RoadComponent/RoadComponent.Road.cs:18-37 | the preamble method computes exactly the planned layout, which is well formed |
| `RoadLayout.ScheduleMatches` | Code/RoadComponent/RoadComponent.Road.cs:60-64 | boundary idx's arc length (idx/n of the length) is the distance the sampler used for sample idx of n + 1 |
| `RoadLayout.FramesOnSpline` | Code/RoadComponent/RoadComponent.Utility.cs:53-69 | every sampled frame lies on the curve at its boundary's arc length |
| `RoadLayout.DistancesIncrease` | Code/RoadComponent/RoadComponent.Road.cs:57-64 | kept boundaries' arc lengths start at 0, end at the spline length and never decrease |
| `Segments.SampleSchedule` | Code/RoadComponent/RoadComponent.Utility.cs:55-60 | the sample distances start at 0, end at the spline length and never go backwards |
| `Segments.CalculateTangentFramesUsingUpDir` | Code/RoadComponent/RoadComponent.Utility.cs:38-73 | frame i is the spline's rolled frame at sample distance i, for every i |
| `Segments.CalculateRotationMinimizingTangentFrames` | Code/RoadComponent/RoadComponent.Utility.cs:77-143 | the frames carry the up vector from sample to sample and then have a looped spline's seam corrected |
| `Segments.SamplersAgreeOnPositions` | Code/RoadComponent/RoadComponent.Utility.cs:53-117 | both sampling modes put frame i at the same point on the curve: the mode changes orientations only |
| `Segments.AngleBetweenSegments` | Code/RoadComponent/RoadComponent.Utility.cs:218-230 | the turning angle lies in [0, 180] degrees |
| `Segments.CoincidentSamplesAreStraight` | Code/RoadComponent/RoadComponent.Utility.cs:223-224 | two samples at the same place make an angle of 0 |
| `Segments.FlagsDependOnPositionsOnly` | Code/RoadComponent/RoadComponent.Utility.cs:178-181 | the straight/curved decisions depend only on the frames' positions |
| `Segments.SortDistinct` | Code/RoadComponent/RoadComponent.Utility.cs:211 | deduplicate-and-sort gives a strictly increasing list with the same elements |
| `Segments.IncreasingUnique` | Code/RoadComponent/RoadComponent.Utility.cs:211 | a strictly increasing list is determined by its elements |
| `Segments.ImportantSegments` | Code/RoadComponent/RoadComponent.Utility.cs:167-214 | the kept boundaries, increasing, are exactly the first, the last, the curved ones and the members of straight runs shorter than the minimum |
| `Segments.ImportantSegmentsShape` | Code/RoadComponent/RoadComponent.Utility.cs:167-214 | the kept list starts at 0, ends at n, stays in [0, n], keeps every turning boundary, and keeps each maximal straight run whole or not at all |
| `Segments.NothingStraightKeepsAll` | Code/RoadComponent/RoadComponent.Utility.cs:176-199 | with no straight interior boundary every boundary 0..n is kept |
| `Segments.DetectImportantSegments` | Code/RoadComponent/RoadComponent.Utility.cs:167-214 | the scan returns exactly the important boundaries |
| `Segments.ScanBoundary` | Code/RoadComponent/RoadComponent.Utility.cs:178-198 | one scan step keeps the loop state: straight boundaries extend the open run; a curved one closes it (keeping it when short) and is kept |
| `Segments.FinishSelection` | Code/RoadComponent/RoadComponent.Utility.cs:201-213 | the open run is kept when non-empty and short, the last boundary is added, and the deduplicated sorted list is the important one |
| `Segments.SettleCurved` | Code/RoadComponent/RoadComponent.Utility.cs:186-198 | a curved boundary closes the run, kept whole exactly when shorter than the minimum, and is kept itself |
| `Segments.SettleLast` | Code/RoadComponent/RoadComponent.Utility.cs:201-208 | after the scan a boundary is in the list exactly when it is important |
| `Segments.ChooseSegments` | Code/RoadComponent/RoadComponent.Road.cs:25-37 | the kept boundaries are the simplifier's choice when auto-simplify is on, otherwise every boundary 0..n |
| `Segments.BaseSegmentCount` | Code/RoadComponent/RoadComponent.Road.cs:18 | the base segment count is at least 2, covers length / precision, and exceeds it by less than one unless it is the minimum 2 |
| `Road.RoadFaces` | Code/RoadComponent/RoadComponent.Road.cs:55-100 | one quad per kept segment, in emission order |
| `Road.RoadFace` | Code/RoadComponent/RoadComponent.Road.cs:55-100 | the quad of one kept segment, U 0 on its left edge and 1 on its right |
| `Road.RoadCapacity` | Code/RoadComponent/RoadComponent.Road.cs:39-51 | the declared totals, 4 vertices and 6 indices per kept segment, are exactly what the quads take |
| `Road.BuildRoad` | Code/RoadComponent/RoadComponent.Road.cs:16-101 | the "road" entry becomes exactly the road's quads with collision, filled to capacity; only that entry changes and a new name is appended to the order |
| `Road.WriteRoad` | Code/RoadComponent/RoadComponent.Road.cs:39-100 | declaring the entry and writing one quad per kept segment leaves exactly the filled entry |
| `Road.EmitRoadQuads` | Code/RoadComponent/RoadComponent.Road.cs:55-100 | the loop writes every kept segment's quad in order |
| `Road.RoadEdges` | Code/RoadComponent/RoadComponent.Road.cs:53-98 | each end's two corners average to the frame position and differ by the road width along its right vector; U is 0 on the left and 1 on the right |
| `Road.RoadFollowsSpline` | Code/RoadComponent/RoadComponent.Road.cs:57-87 | on a well-behaved spline each quad's near end is centred on the curve at the kept boundary's arc length |
| `Road.RoadVContinuous` | Code/RoadComponent/RoadComponent.Road.cs:60-67 | each quad's far V equals the next quad's near V |
| `Road.RoadVIncreasing` | Code/RoadComponent/RoadComponent.Road.cs:60-67 | V starts at 0, never decreases, and ends at the spline length in repeats |
| `Road.RoadFaceV` | Code/RoadComponent/RoadComponent.Road.cs:60-98 | quad i takes its near boundary's V on the first corners and its far boundary's on the last |
| `RoadComponent.ComponentOrder` | Code/RoadComponent/RoadComponent.cs:113-117 | the entries are enumerated road first, then the sidewalk when there is one |
| `RoadComponent.BuildAllMeshes` | Code/RoadComponent/RoadComponent.cs:113-117 | the build callback writes the road entry, then the sidewalk entry when enabled, and changes nothing else |
| `RoadComponent.RoadCollides` | Code/RoadComponent/RoadComponent.Road.cs:44-51 | the road entry always collides, so a rebuilt road always gathers collision vertices |
| `RoadComponent.Rebuild` | Code/Utility/MeshBuilder.cs:164-172 | a rebuild discards everything, writes the road and sidewalk afresh, uploads every drawable entry and always creates a collider |
| `RoadComponent.CreateMeshBuilder` | Code/RoadComponent/RoadComponent.cs:89-94 | a fresh builder, rebuilt at once, holds the component's entries, has a collider, casts shadows and is clean |
| `RoadComponent.Update` | Code/Utility/MeshBuilder.cs:146-160 | a dirty builder is rebuilt and marked clean; a clean one is left exactly as it is |
| `RoadComponent.RemoveMeshBuilder` | Code/RoadComponent/RoadComponent.cs:105-109 | the builder is left with no entries, no render meshes and no collider |
| `Sidewalk.SidewalkEdges` | Code/RoadComponent/RoadComponent.Sidewalk.cs:61-67 | the inner edges sit half the road width from the centre line and the outer edges one sidewalk width further out, the two sides mirrored |
| `Sidewalk.SideAdvance` | Code/RoadComponent/RoadComponent.Sidewalk.cs:125-134 | one side's V advance over a segment (the mean of its inner and outer bottom edge lengths, in repeats) is never negative |
| `Sidewalk.Advance` | Code/RoadComponent/RoadComponent.Sidewalk.cs:125-134 | both sides' V advances over a segment are non-negative |
| `Sidewalk.SidewalkSegment` | Code/RoadComponent/RoadComponent.Sidewalk.cs:139-179 | each kept segment writes six quads: left top, inner and outer walls, then the right ones |
| `Sidewalk.SidewalkQuad` | Code/RoadComponent/RoadComponent.Sidewalk.cs:139-179 | each of a segment's six writes is a quad |
| `Sidewalk.SidewalkVsAccumulate` | Code/RoadComponent/RoadComponent.Sidewalk.cs:69-137 | the accumulators start at zero and each kept segment adds its advance |
| `Sidewalk.AccumulatorsIncrease` | Code/RoadComponent/RoadComponent.Sidewalk.cs:130-137 | any accumulator list for the layout starts at zero and never decreases |
| `Sidewalk.SidewalkVIncreasing` | Code/RoadComponent/RoadComponent.Sidewalk.cs:69-137 | the running V of each side starts at zero and never decreases along the road |
| `Sidewalk.SidewalkCapacity` | Code/RoadComponent/RoadComponent.Sidewalk.cs:44-59 | the declared totals, 24 vertices and 36 indices per kept segment, are exactly what the quads take |
| `Sidewalk.SegmentSlots` | Code/RoadComponent/RoadComponent.Sidewalk.cs:72-180 | kept segment i's six quads occupy slots 6i to 6i+6, in emission order |
| `Sidewalk.BuildSidewalk` | Code/RoadComponent/RoadComponent.Sidewalk.cs:17-181 | without a sidewalk nothing changes; otherwise the "sidewalk" entry becomes exactly its quads with collision, filled to capacity, and only that entry changes |
| `Sidewalk.WriteSidewalk` | Code/RoadComponent/RoadComponent.Sidewalk.cs:44-180 | declaring the entry and writing six quads per kept segment leaves exactly the filled entry |
| `Sidewalk.EmitSidewalkQuads` | Code/RoadComponent/RoadComponent.Sidewalk.cs:69-180 | the loop writes every quad, in order, leaving the entry holding all of them |
| `Sidewalk.EmitSegment` | Code/RoadComponent/RoadComponent.Sidewalk.cs:130-179 | one iteration advances both accumulators to the next stage and writes that segment's six quads |
| `Sidewalk.TopV` | Code/RoadComponent/RoadComponent.Sidewalk.cs:139-165 | the top quads take the accumulators before the segment at the near end and after it at the far end |
| `Sidewalk.SidewalkVContinuous` | Code/RoadComponent/RoadComponent.Sidewalk.cs:130-165 | per side, each segment's top V starts where the previous one ended |
| `Sidewalk.InnerWalls` | Code/RoadComponent/RoadComponent.Sidewalk.cs:98-172 | the inner walls' bottom edges lie on the road's edges and both walls take the sidewalk height in repeats as U extent |
| `Sidewalk.SidewalkMeetsRoad` | Code/RoadComponent/RoadComponent.Sidewalk.cs:98-172 | the bottom of each inner wall runs along the road quad's edge on that side |
| `LineDefinitions.RoadLineDefinition.SetDashSpacing` | Code/Utility/RoadLineDefinition.cs:10 | the spacing setter clamps to [0, 10000], keeps an in-range value and changes nothing else |
| `LineDefinitions.RoadLineDefinition.SetDashFillRatio` | Code/Utility/RoadLineDefinition.cs:12-13 | the fill-ratio setter clamps to [0, 1], keeps an in-range value and changes nothing else |
| `LineDefinitions.DefaultIsSolid` | Code/Utility/RoadLineDefinition.cs:8-13 | a new asset has spacing 0 and fill ratio 1, a solid line, and lies in the setters' ranges |
| `LineDefinitions.SettersIdempotent` | Code/Utility/RoadLineDefinition.cs:10-13 | setting a value twice is setting it once, and re-setting a valid definition's own value changes nothing |
| `LineDefinitions.DashLengthBounds` | Code/RoadComponent/RoadComponent.Lines.cs:124-126 | on a valid definition the dash length lies between zero and the spacing |
| `Dashes.CyclePos` | Code/RoadComponent/RoadComponent.Lines.cs:130-131 | with a cycle, the position within it (C#'s float remainder) lies in [0, spacing) |
| `Dashes.LineStep` | Code/RoadComponent/RoadComponent.Lines.cs:128-151 | the lines' step is at least min(0.01, remaining) and never beyond the segment's end; without a cycle it is one dash over the rest of the segment |
| `Dashes.LaneStep` | Code/RoadComponent/RoadComponent.Lanes.cs:128-142 | the lanes' step is positive and never beyond the segment's end; without a cycle it is one dash over the rest; a step short of the end lands on a dash or cycle boundary |
| `Dashes.StepOf` | Code/RoadComponent/RoadComponent.Lines.cs:128-151 | whichever family's rule: the step never passes the segment's end, is positive while some of it remains, and is one dash over the rest without a cycle |
| `Dashes.MinGap` | Code/RoadComponent/RoadComponent.Lanes.cs:133-142 | the shortest distance between two boundaries of a cycle is positive |
| `Dashes.CycleShift` | Code/RoadComponent/RoadComponent.Lanes.cs:131 | k whole cycles and x into the next leave the cycle position at x |
| `Dashes.LaneStepLands` | Code/RoadComponent/RoadComponent.Lanes.cs:128-148 | a lane step that does not finish the segment ends on a boundary, so the next step is a whole dash or gap |
| `Dashes.LeaveDash` | Code/RoadComponent/RoadComponent.Lanes.cs:139-140 | stepping to the end of the current dash lands where the gap begins |
| `Dashes.LeaveGap` | Code/RoadComponent/RoadComponent.Lanes.cs:141-142 | stepping over the rest of the gap lands at the start of the next cycle |
| `Dashes.Progress` | Code/RoadComponent/RoadComponent.Lines.cs:128-157 | every turn of either loop takes a positive step and lowers a natural-number measure, so the dash walk terminates for the lines and for the lanes |
| `Dashes.WalkSegment` | Code/RoadComponent/RoadComponent.Lines.cs:128-158 | walking a segment never moves the accumulator backwards |
| `Dashes.WalkStep` | Code/RoadComponent/RoadComponent.Lines.cs:222-273 | one loop turn: the step's dash (when in one) followed by the walk from after the step |
| `Dashes.WalkDone` | Code/RoadComponent/RoadComponent.Lines.cs:128 | when no more than 0.001 remains the loop stops with no dash and the accumulator unchanged |
| `Dashes.WalkAdvance` | Code/RoadComponent/RoadComponent.Lines.cs:156-157 | the walk consumes the segment up to a remainder in [0, 0.001], advancing the accumulator by the rest |
| `Dashes.SolidSegment` | Code/RoadComponent/RoadComponent.Lines.cs:143-144 | without a cycle a segment longer than the threshold is exactly one dash covering all of it |
| `Dashes.LaidAppend` | Code/RoadComponent/RoadComponent.Lines.cs:270-272 | dashes laid over two consecutive ranges are laid over their union |
| `Dashes.WalkLaid` | Code/RoadComponent/RoadComponent.Lines.cs:222-273 | a walk's dashes have positive lengths, lie between its start and end accumulators, and do not overlap |
| `MarkingOffsets.OffsetsSpread` | Code/RoadComponent/RoadComponent.Lines.cs:88-89 | the markings lie strictly inside the widened road, evenly spaced by w/(n+1) from left to right, and mirror about the centre line |
| `Markings.MarkingSettings.SetTextureRepeat` | Code/RoadComponent/RoadComponent.Lines.cs:16 | the texture-repeat setter clamps to [1, 100000], keeps an in-range value and changes nothing else |
| `Markings.AlongStep` | Code/RoadComponent/RoadComponent.Lines.cs:247-271 | moving the centre point by the direction times the step takes it from accumulator x to x + step, starting at the near centre |
| `Markings.Accumulated` | Code/RoadComponent/RoadComponent.Lines.cs:177-270 | a marking's accumulator at each kept boundary is never negative |
| `Markings.WalkFaces` | Code/RoadComponent/RoadComponent.Lines.cs:249-268 | one quad per dash, textured along it: V runs from the dash's start to its end in texture repeats |
| `Markings.DashFace` | Code/RoadComponent/RoadComponent.Lines.cs:249-268 | a dash's quad: U 0 on the left and 1 on the right, V constant across the strip and growing along a dash of positive length |
| `Markings.TexturedAppend` | Code/RoadComponent/RoadComponent.Lines.cs:179-275 | the quads of consecutive walks are textured along their dashes taken together |
| `Markings.MarkingTextured` | Code/RoadComponent/RoadComponent.Lines.cs:179-275 | over the first i kept segments a marking's quads are textured along its dashes, which are laid in order from accumulator 0 to where the walk has reached |
| `Markings.TexturedForward` | Code/RoadComponent/RoadComponent.Lines.cs:253-270 | quads textured along dashes laid from a non-negative start have V growing across each quad and never stepping back between quads |
| `Markings.MarkingVForward` | Code/RoadComponent/RoadComponent.Lines.cs:253-270 | along a marking every quad's V runs from its dash's start to its end in repeats, is non-negative, grows strictly across the quad, starts no earlier than the previous quad's V ends and never passes the final accumulator |
| `Markings.FacesBefore` | Code/RoadComponent/RoadComponent.Lines.cs:179-275 | the quads over the first i kept segments are a prefix of all the marking's quads |
| `Markings.SegmentSlice` | Code/RoadComponent/RoadComponent.Lines.cs:179-275 | segment i's quads occupy the slots between the counts before and after it |
| `Markings.OverlayLookup` | Code/RoadComponent/RoadComponent.Lines.cs:163-174 | after declaring prefix+k for every marking, each such name holds its marking's entry and every other name its old entry |
| `Markings.OverlayExtend` | Code/RoadComponent/RoadComponent.Lines.cs:163-174 | declaring prefix+k extends the overlay by one entry; the name was present before only if the table had it |
| `Markings.OverlayValid` | Code/RoadComponent/RoadComponent.Lines.cs:163-174 | overlaying well-formed entries keeps the table well formed |
| `Markings.Declarations` | Code/RoadComponent/RoadComponent.Lines.cs:163-174 | one declaration per marking |
| `Markings.CountedNext` | Code/RoadComponent/RoadComponent.Lines.cs:106-158 | walking marking k over segment i advances exactly its own count and accumulator |
| `Markings.CountedWraps` | Code/RoadComponent/RoadComponent.Lines.cs:95-160 | after every marking has walked segment i, the counts and accumulators are those before segment i + 1 |
| `Markings.CountPass` | Code/RoadComponent/RoadComponent.Lines.cs:91-160 | the pre-pass leaves every marking's total dash count and final accumulator in its slots |
| `Markings.CountedStart` | Code/RoadComponent/RoadComponent.Lines.cs:92-93 | before any segment every count and accumulator is zero |
| `Markings.CountSegment` | Code/RoadComponent/RoadComponent.Lines.cs:95-160 | one kept segment of the pre-pass advances every marking in turn |
| `Markings.CountMarking` | Code/RoadComponent/RoadComponent.Lines.cs:106-158 | marking k's turn advances only its own count and accumulator past the segment |
| `Markings.SegmentCounted` | Code/RoadComponent/RoadComponent.Lines.cs:120-158 | a segment adds its walk's dashes to the count and moves the accumulator to the walk's end |
| `Markings.CountDashes` | Code/RoadComponent/RoadComponent.Lines.cs:122-158 | the dash loop counts exactly the walk's dashes and leaves the accumulator at its end; other markings are untouched |
| `Markings.DeclareMarkings` | Code/RoadComponent/RoadComponent.Lines.cs:162-174 | every marking's entry is declared with four vertices and six indices per counted dash, without collision, new names appended in marking order |
| `Markings.DeclareMarking` | Code/RoadComponent/RoadComponent.Lines.cs:165-173 | declaring marking k extends the declarations and the order by that one marking |
| `Markings.SegmentCount` | Code/RoadComponent/RoadComponent.Lines.cs:249-268 | one more kept segment adds one quad per dash of its walk |
| `Markings.DashCountFaces` | Code/RoadComponent/RoadComponent.Lines.cs:153-154 | a marking's dash count equals its number of quads |
| `Markings.DeclaredExactly` | Code/RoadComponent/RoadComponent.Lines.cs:162-177 | the counted declarations are exactly the entries the final pass starts from: room for every quad, none written yet |
| `Markings.DeclaredEntry` | Code/RoadComponent/RoadComponent.Lines.cs:167-173 | marking k's declared entry is its entry with none of its quads written |
| `Markings.ProgressedWraps` | Code/RoadComponent/RoadComponent.Lines.cs:179-275 | once every marking has walked segment i, the entries are those before segment i + 1 |
| `Markings.ProgressedDone` | Code/RoadComponent/RoadComponent.Lines.cs:179-275 | after the last kept segment every marking's entry is its finished entry |
| `Markings.EmitPass` | Code/RoadComponent/RoadComponent.Lines.cs:176-275 | the final pass, from fresh accumulators, leaves every marking's entry exactly its finished entry |
| `Markings.EmitSegment` | Code/RoadComponent/RoadComponent.Lines.cs:179-274 | one kept segment of the final pass advances every marking's accumulator and entry |
| `Markings.EmitMarking` | Code/RoadComponent/RoadComponent.Lines.cs:195-273 | marking k's loop over segment i advances only its accumulator and its entry |
| `Markings.MarkingReady` | Code/RoadComponent/RoadComponent.Lines.cs:195-273 | before marking k walks segment i, its quads for that segment sit in its final list right after its earlier segments' |
| `Markings.FacesAdvance` | Code/RoadComponent/RoadComponent.Lines.cs:249-268 | the quads over i + 1 segments are those over i followed by one per dash of segment i |
| `Markings.OverlayStep` | Code/RoadComponent/RoadComponent.Lines.cs:259-267 | writing marking k's quads for a segment replaces only its own entry in the overlaid table |
| `Markings.EmitStepFacts` | Code/RoadComponent/RoadComponent.Lines.cs:222-272 | one loop turn: a positive step along the span; a dash step is the walk's next dash and quad; fewer steps remain |
| `Markings.LaysSlice` | Code/RoadComponent/RoadComponent.Lines.cs:222-273 | the slots of the final list from j on lay out the rest of the walk |
| `Markings.EmitStep` | Code/RoadComponent/RoadComponent.Lines.cs:222-272 | one turn writes the quad of a step in a dash into the next slot, advances the accumulator, and nothing else |
| `Markings.EmitTurn` | Code/RoadComponent/RoadComponent.Lines.cs:222-272 | one turn keeps the loop's invariant: the rest of the walk accounts for the same dashes and end, and fewer steps are left |
| `Markings.EmitDashes` | Code/RoadComponent/RoadComponent.Lines.cs:222-273 | the final pass's dash loop steps exactly as the pre-pass did and writes one quad per dash, leaving the accumulator at the walk's end |
| `Markings.WriteMarkings` | Code/RoadComponent/RoadComponent.Lines.cs:86-276 | the pre-pass counts, every entry is declared with exactly that room, and the final pass fills every entry exactly |
| `Markings.EntriesValid` | Code/RoadComponent/RoadComponent.Lines.cs:162-275 | every finished marking entry is well formed |
| `Markings.EntryExact` | Code/RoadComponent/RoadComponent.Lines.cs:162-275 | each finished entry holds four vertices and six indices per counted dash, all written, in the marking's material and without collision |
| `Lines.LineSet` | Code/RoadComponent/RoadComponent.Lines.cs:86-126 | one marking per definition slot, with the lines' step rule and the "line_" prefix, well formed when the settings are |
| `Lines.BuildLines` | Code/RoadComponent/RoadComponent.Lines.cs:53-276 | nothing is declared when the lines are off or the array is missing or empty; otherwise every line's entry is declared with exactly the room its counted dashes need and filled to that capacity |
| `Lines.LinesSpread` | Code/RoadComponent/RoadComponent.Lines.cs:88-108 | the lines lie strictly inside the widened road, evenly spaced left to right in slot order |
| `Lines.EmptySlotSolid` | Code/RoadComponent/RoadComponent.Lines.cs:124-126 | an empty slot draws a solid line: each segment longer than the threshold is exactly one dash over all of it |
| `Lanes.LaneSet` | Code/RoadComponent/RoadComponent.Lanes.cs:86-126 | one marking per lane definition, with the lanes' step rule and the "lane_" prefix, well formed when the settings are |
| `Lanes.BuildLanes` | Code/RoadComponent/RoadComponent.Lanes.cs:52-259 | nothing is declared when the lanes are off or the array is missing or empty; an empty slot throws, reported as `thrown`, and leaves the builder as it was; otherwise every lane's entry is declared with exactly the room its counted dashes need and filled to that capacity |
| `Lanes.ThrowDeclaresNothing` | Code/RoadComponent/RoadComponent.Lanes.cs:124-125 | a build that throws on an empty slot leaves the table and its order as they were |
| `Lanes.LanesSpread` | Code/RoadComponent/RoadComponent.Lanes.cs:86-107 | the lanes lie strictly inside the widened road, evenly spaced left to right in definition order |
| `Lanes.LanesNeverCollide` | Code/RoadComponent/RoadComponent.Lanes.cs:160-166 | no lane entry collides, so the lanes never gather collision vertices |
| `Lanes.RebuildLanes` | Code/Utility/MeshBuilder.cs:164-172 | a rebuild writes the lanes afresh, uploads every drawable entry and never creates a collider; a throwing build leaves the builder cleared |
| `Lanes.CreateLanes` | Code/RoadComponent/RoadComponent.Lanes.cs:27-33 | a fresh builder that casts no shadows, rebuilt at once, with no collider, reporting whether the rebuild threw |
| `Lanes.UpdateLanes` | Code/RoadComponent/RoadComponent.Lanes.cs:37-40 | a dirty lanes builder is rebuilt and marked clean unless the rebuild throws, when it stays dirty; a clean one is left exactly as it is |
| `Lanes.RemoveLanes` | Code/RoadComponent/RoadComponent.Lanes.cs:44-48 | the lanes builder is left with no entries, no render meshes and no collider |
| `CircleIntersection.WithPrecision` | Code/RoadIntersectionComponent/RoadIntersectionComponent.Circle.cs:16 | the precision setter clamps to [10, 10000], keeps an in-range value and leaves the radius and exits as they are |
| `CircleIntersection.SegmentCount` | Code/RoadIntersectionComponent/RoadIntersectionComponent.Circle.cs:21-27 | the segment count is never below 8 |
| `CircleIntersection.SegmentsCoverCircle` | Code/RoadIntersectionComponent/RoadIntersectionComponent.Circle.cs:21-27 | the segments' arcs are no longer than the precision, and above the minimum of 8 one fewer segment would leave an arc longer than the precision |
| `CircleIntersection.SegmentsTileTurn` | Code/RoadIntersectionComponent/RoadIntersectionComponent.Circle.cs:35-49 | segment 0 starts at 0 degrees, the last one ends at 360, and the starts increase |
| `CircleIntersection.SignedDelta` | Code/RoadIntersectionComponent/RoadIntersectionComponent.Circle.cs:147-150 | the folded difference (C#'s truncating float remainder, then one turn off or on) lies in [-180, 180] |
| `CircleIntersection.AngleDelta` | Code/RoadIntersectionComponent/RoadIntersectionComponent.Circle.cs:145-153 | the angle difference lies in [0, 180] |
| `CircleIntersection.SignedDeltaWinding` | Code/RoadIntersectionComponent/RoadIntersectionComponent.Circle.cs:147-150 | the folded difference is a − b less a whole number of turns |
| `CircleIntersection.AngleDeltaNearest` | Code/RoadIntersectionComponent/RoadIntersectionComponent.Circle.cs:145-153 | the angle difference is the angular distance: no other whole number of turns brings a − b nearer to zero |
| `CircleIntersection.AngleDeltaSymmetric` | Code/RoadIntersectionComponent/RoadIntersectionComponent.Circle.cs:145-153 | a is as far from b as b is from a |
| `CircleIntersection.ArcBlockedByExit` | Code/RoadIntersectionComponent/RoadIntersectionComponent.Circle.cs:157-170 | true if and only if some exit has an arc end strictly within its half-angle; always false with no exits |
| `CircleIntersection.HalfAngle` | Code/RoadIntersectionComponent/RoadIntersectionComponent.Circle.cs:161 | an exit's half-angle lies in [0, 90) degrees for a non-negative road width over a positive radius |
| `CircleIntersection.ActiveBounds` | Code/RoadIntersectionComponent/RoadIntersectionComponent.Circle.cs:37-42 | at most every segment is drawn, and with no exits every one is |
| `CircleIntersection.CountActiveSegments` | Code/RoadIntersectionComponent/RoadIntersectionComponent.Circle.cs:37-42 | the counting pass returns the number of segments no exit blocks |
| `CircleIntersection.GetSegmentCount` | Code/RoadIntersectionComponent/RoadIntersectionComponent.Circle.cs:21-27 | the builds' segment count, at least 8 |
| `CircleIntersection.SidewalkQuads` | Code/RoadIntersectionComponent/RoadIntersectionComponent.Circle.cs:109-139 | each drawn segment adds a top quad and a curb quad |
| `CircleIntersection.ArcGroups` | Code/RoadIntersectionComponent/RoadIntersectionComponent.Circle.cs:46-59 | segment i contributes its faces when it is drawn and nothing when an exit blocks it |
| `CircleIntersection.ArcCapacity` | Code/RoadIntersectionComponent/RoadIntersectionComponent.Circle.cs:44-77 | the declared room is exactly what is written: the per-segment vertices and indices once per drawn segment |
| `CircleIntersection.CircleRoadCapacity` | Code/RoadIntersectionComponent/RoadIntersectionComponent.Circle.cs:44 | the road takes 3 vertices and 3 indices per drawn segment |
| `CircleIntersection.CircleSidewalkCapacity` | Code/RoadIntersectionComponent/RoadIntersectionComponent.Circle.cs:77 | the sidewalk takes 8 vertices and 12 indices per drawn segment |
| `CircleIntersection.BuildCircleRoad` | Code/RoadIntersectionComponent/RoadIntersectionComponent.Circle.cs:31-60 | the road entry becomes exactly the drawn segments' triangles, filled to capacity, with collision and the road or default material; only that entry changes |
| `CircleIntersection.EmitCircleRoad` | Code/RoadIntersectionComponent/RoadIntersectionComponent.Circle.cs:46-59 | the drawing pass writes every unblocked segment's triangle in segment order |
| `CircleIntersection.AddRoadSegment` | Code/RoadIntersectionComponent/RoadIntersectionComponent.Circle.cs:54-58 | one drawn segment writes its triangle |
| `CircleIntersection.BuildCircleSidewalk` | Code/RoadIntersectionComponent/RoadIntersectionComponent.Circle.cs:64-141 | the sidewalk entry becomes exactly the drawn segments' top and curb quads, filled to capacity, with collision; only that entry changes |
| `CircleIntersection.EmitCircleSidewalk` | Code/RoadIntersectionComponent/RoadIntersectionComponent.Circle.cs:82-140 | the drawing pass writes every unblocked segment's two quads in segment order |
| `CircleIntersection.AddSidewalkSegment` | Code/RoadIntersectionComponent/RoadIntersectionComponent.Circle.cs:90-139 | one drawn segment writes its top quad, then its curb quad |
| `CircleIntersection.RoadFan` | Code/RoadIntersectionComponent/RoadIntersectionComponent.Circle.cs:54-58 | every triangle starts at the centre with its other corners on the rim at its arc's ends, and neighbouring triangles share their edge |
| `CircleIntersection.RoadTriangle` | Code/RoadIntersectionComponent/RoadIntersectionComponent.Circle.cs:54-58 | a segment's road face is a triangle from the centre, facing up |
| `CircleIntersection.SidewalkMeetsRoad` | Code/RoadIntersectionComponent/RoadIntersectionComponent.Circle.cs:102-139 | the curb's bottom edge is the road triangle's rim edge and its top edge is the top quad's inner edge |
| `CircleIntersection.CurbVContinuous` | Code/RoadIntersectionComponent/RoadIntersectionComponent.Circle.cs:90-138 | V is 0 at the first segment, each segment ends where the next starts, and V never decreases around the ring |
| `RectangleIntersection.SideCounts` | Code/RoadIntersectionComponent/RoadIntersectionComponent.Rectangle.cs:26-31 | every side is open or closed, two seals are reserved per open side, only the four side bits count, and there are no exits exactly when none of them is set |
| `RectangleIntersection.ExitCount` | Code/RoadIntersectionComponent/RoadIntersectionComponent.Rectangle.cs:26-31 | at most four exits, and none exactly when no side flag is set |
| `RectangleIntersection.CountExits` | Code/RoadIntersectionComponent/RoadIntersectionComponent.Rectangle.cs:26-31 | the road build's counter is the number of open sides |
| `RectangleIntersection.CountSidewalkParts` | Code/RoadIntersectionComponent/RoadIntersectionComponent.Rectangle.cs:101-115 | the sidewalk build's counters are the number of closed sides and two seals per open side |
| `RectangleIntersection.CornerSealsPerExit` | Code/RoadIntersectionComponent/RoadIntersectionComponent.Rectangle.cs:151-159 | the four corner caps, told which of their sides are exits, seal exactly as many quads as the sidewalk reserves |
| `RectangleIntersection.RoadGroups` | Code/RoadIntersectionComponent/RoadIntersectionComponent.Rectangle.cs:54-72 | the road is written as five groups: the centre quad and the north, south, east and west extensions |
| `RectangleIntersection.CenterQuad` | Code/RoadIntersectionComponent/RoadIntersectionComponent.Rectangle.cs:53-59 | the centre quad faces up on every corner with its texture starting at (0, 0) |
| `RectangleIntersection.RoadCapacity` | Code/RoadIntersectionComponent/RoadIntersectionComponent.Rectangle.cs:33-41 | the road is one quad plus one per exit, exactly the (1 + exits)·4 vertices and (1 + exits)·6 indices declared |
| `RectangleIntersection.FlattenSizes5` | Code/RoadIntersectionComponent/RoadIntersectionComponent.Rectangle.cs:54-72 | the road's faces number the sum of its five groups' sizes |
| `RectangleIntersection.AddRoadExtension` | Code/RoadIntersectionComponent/RoadIntersectionComponent.Rectangle.cs:77-96 | one open side writes its extension quad as the next group of the road entry |
| `RectangleIntersection.ExtendIfOpen` | Code/RoadIntersectionComponent/RoadIntersectionComponent.Rectangle.cs:62-72 | an open side writes its extension, a closed side writes nothing |
| `RectangleIntersection.BuildRectangleRoad` | Code/RoadIntersectionComponent/RoadIntersectionComponent.Rectangle.cs:24-73 | the road entry becomes exactly the centre quad and the open sides' extensions, filled to capacity, with collision and the road or default material; only that entry changes |
| `RectangleIntersection.WriteRoadQuads` | Code/RoadIntersectionComponent/RoadIntersectionComponent.Rectangle.cs:54-72 | the writes fill the declared road entry with its quads in order |
| `RectangleIntersection.StripFaces` | Code/RoadIntersectionComponent/RoadIntersectionComponent.Rectangle.cs:264-299 | a closed side's strip is three quads: the top, the inner face and the outer face |
| `RectangleIntersection.CapBody` | Code/RoadIntersectionComponent/RoadIntersectionComponent.Rectangle.cs:181-212 | every corner cap has three quads, the top and two outer faces, wound by the flip test |
| `RectangleIntersection.CapSize` | Code/RoadIntersectionComponent/RoadIntersectionComponent.Rectangle.cs:164-261 | a corner cap is three quads plus one seal per adjacent exit, and all of them are quads |
| `RectangleIntersection.StripGroups` | Code/RoadIntersectionComponent/RoadIntersectionComponent.Rectangle.cs:135-149 | the strips of the north, south, east and west sides, in that order |
| `RectangleIntersection.CapGroups` | Code/RoadIntersectionComponent/RoadIntersectionComponent.Rectangle.cs:156-159 | the south-west, south-east, north-east and north-west caps, in that order |
| `RectangleIntersection.SidewalkGroups` | Code/RoadIntersectionComponent/RoadIntersectionComponent.Rectangle.cs:135-159 | the sidewalk is written as eight groups: four strips, then four caps |
| `RectangleIntersection.FlattenSizes8` | Code/RoadIntersectionComponent/RoadIntersectionComponent.Rectangle.cs:135-159 | the sidewalk's faces number the sum of its eight groups' sizes |
| `RectangleIntersection.SidewalkGroupQuads` | Code/RoadIntersectionComponent/RoadIntersectionComponent.Rectangle.cs:135-159 | every face of the sidewalk is a quad |
| `RectangleIntersection.SidewalkGroupSizes` | Code/RoadIntersectionComponent/RoadIntersectionComponent.Rectangle.cs:117-159 | three quads per closed side, and three plus one per seal per corner |
| `RectangleIntersection.SidewalkCapacity` | Code/RoadIntersectionComponent/RoadIntersectionComponent.Rectangle.cs:117-121 | for every exit set the sidewalk takes exactly the declared sideCount·12 + 48 + endCapCount·4 vertices and sideCount·18 + 72 + endCapCount·6 indices |
| `RectangleIntersection.AddSidewalkStrip` | Code/RoadIntersectionComponent/RoadIntersectionComponent.Rectangle.cs:264-299 | one closed side writes its top, inner and outer quads as the next group |
| `RectangleIntersection.StripIfClosed` | Code/RoadIntersectionComponent/RoadIntersectionComponent.Rectangle.cs:135-149 | a closed side writes its strip, an open side writes nothing |
| `RectangleIntersection.AddCornerCap` | Code/RoadIntersectionComponent/RoadIntersectionComponent.Rectangle.cs:164-261 | a corner writes its body, then a seal for side a when it is an exit and for side b when it is an exit |
| `RectangleIntersection.BuildRectangleSidewalk` | Code/RoadIntersectionComponent/RoadIntersectionComponent.Rectangle.cs:99-160 | the sidewalk entry becomes exactly the strips and sealed corner caps, filled to capacity, with collision; only that entry changes |
| `RectangleIntersection.WriteSidewalkQuads` | Code/RoadIntersectionComponent/RoadIntersectionComponent.Rectangle.cs:135-159 | the writes fill the declared sidewalk entry with its quads in order |
| `RectangleIntersection.WriteStrips` | Code/RoadIntersectionComponent/RoadIntersectionComponent.Rectangle.cs:135-149 | the four sides' strips are the sidewalk's first four groups |
| `RectangleIntersection.WriteCornerCaps` | Code/RoadIntersectionComponent/RoadIntersectionComponent.Rectangle.cs:151-159 | the four caps are the sidewalk's last four groups |
| `RectangleIntersection.ExitPlacement` | Code/RoadIntersectionComponent/RoadIntersectionComponent.Rectangle.cs:303-356 | an exit value that is not exactly one side leaves the transform at the origin, unrotated |
| `RectangleIntersection.ExitOnRoadEdge` | Code/RoadIntersectionComponent/RoadIntersectionComponent.Rectangle.cs:303-356 | without the sidewalk, an exit sits at the midpoint of its side's road edge |
| `RectangleIntersection.ExitSidewalkShift` | Code/RoadIntersectionComponent/RoadIntersectionComponent.Rectangle.cs:303-356 | including the sidewalk moves an exit the sidewalk's width further out along its side |
| `RectangleIntersection.OppositeExits` | Code/RoadIntersectionComponent/RoadIntersectionComponent.Rectangle.cs:303-356 | north and south, and east and west, mirror each other through the origin and face opposite ways |
| `IntersectionComponent.BuildRoad` | Code/RoadIntersectionComponent/RoadIntersectionComponent.cs:125-131 | the road entry becomes the rectangle's or the circle's road by shape; only that entry changes |
| `IntersectionComponent.BuildSidewalk` | Code/RoadIntersectionComponent/RoadIntersectionComponent.cs:135-144 | nothing changes when the sidewalk's width or height is not positive; otherwise the sidewalk entry becomes the shape's sidewalk |
| `IntersectionComponent.BuildAllMeshes` | Code/RoadIntersectionComponent/RoadIntersectionComponent.cs:117-121 | the road, then the sidewalk: the table and its enumeration order after both |
| `IntersectionComponent.ComponentOrder` | Code/RoadIntersectionComponent/RoadIntersectionComponent.cs:117-121 | a fresh build enumerates the road entry, then the sidewalk entry when it is drawn |
| `IntersectionComponent.Rebuild` | Code/Utility/MeshBuilder.cs:164-172 | the table is rebuilt from nothing, every drawable entry becomes a render mesh, and the colliding entries form the collider, or none when nothing collides |
| `IntersectionComponent.CreateMeshBuilder` | Code/RoadIntersectionComponent/RoadIntersectionComponent.cs:39-46 | enabling creates a fresh, clean, shadow-casting builder holding a complete build |
| `IntersectionComponent.Update` | Code/RoadIntersectionComponent/RoadIntersectionComponent.cs:60-65 | a dirty builder is rebuilt and marked clean; a clean one is left exactly as it is |
| `IntersectionComponent.Disable` | Code/RoadIntersectionComponent/RoadIntersectionComponent.cs:50-56 | the builder is left with no entries, no render meshes and no collider |
| `IntersectionComponent.RectangleCollides` | Code/RoadIntersectionComponent/RoadIntersectionComponent.cs:117-121 | a rectangle intersection always has a collider: its road entry collides and holds vertices |
| `IntersectionComponent.OpenCircleCollides` | Code/RoadIntersectionComponent/RoadIntersectionComponent.cs:117-121 | a circle intersection without exits always has a collider too |
| `IntersectionComponent.ExitDistance` | Code/RoadIntersectionComponent/RoadIntersectionComponent.Circle.cs:178 | a circle's exit sits at the radius; a rectangle's at half the larger of width and length |
| `IntersectionComponent.CircleExitOnRim` | Code/RoadIntersectionComponent/RoadIntersectionComponent.Circle.cs:174-187 | a circle's exit at the start angle of a segment sits on that segment's rim corner of the road fan |
| `LegacyIntersection.RoadQuadCapacity` | Code/RoadComponent/RoadIntersectionComponent.cs:108-137 | the older rectangle road's single quad takes exactly the 4 vertices and 6 indices declared |
| `LegacyIntersection.BuildRectangleRoad` | Code/RoadComponent/RoadIntersectionComponent.cs:108-137 | the road entry becomes exactly that one quad, filled, colliding; only that entry changes |
| `LegacyIntersection.Strip` | Code/RoadComponent/RoadIntersectionComponent.cs:320-350 | the older strip is two quads, the top and the curb face |
| `LegacyIntersection.Strips` | Code/RoadComponent/RoadIntersectionComponent.cs:196-236 | four strips, south, east, north and west |
| `LegacyIntersection.StripsCapacity` | Code/RoadComponent/RoadIntersectionComponent.cs:196-204 | the older sidewalk is eight quads, exactly the 32 vertices and 48 indices declared |
| `LegacyIntersection.StripsRingRoad` | Code/RoadComponent/RoadIntersectionComponent.cs:196-236 | each curb face ends where the next begins, the last where the first begins, and each stands on an edge of the road quad |
| `LegacyIntersection.BuildRectangleSidewalk` | Code/RoadComponent/RoadIntersectionComponent.cs:196-236 | the sidewalk entry becomes exactly the four strips, filled, colliding; only that entry changes |
| `LegacyIntersection.WriteStrips` | Code/RoadComponent/RoadIntersectionComponent.cs:211-235 | the writes fill the declared sidewalk entry with the strips in order |
| `LegacyIntersection.AddStrip` | Code/RoadComponent/RoadIntersectionComponent.cs:320-350 | one strip writes its top quad, then its curb quad |
| `LegacyIntersection.BuildAllMeshes` | Code/RoadComponent/RoadIntersectionComponent.cs:90-94 | the road surface, then the sidewalk: the table and its enumeration order after both |
| `LegacyIntersection.BuildRoadSurface` | Code/RoadComponent/RoadIntersectionComponent.cs:98-104 | the road entry becomes the rectangle's quad or the circle's fan by shape |
| `LegacyIntersection.BuildSidewalk` | Code/RoadComponent/RoadIntersectionComponent.cs:183-192 | nothing changes when the width or height is not positive; otherwise the shape's sidewalk |
| `LegacyIntersection.Rebuild` | Code/Utility/MeshBuilder.cs:164-172 | the table is rebuilt from nothing, the drawable entries become render meshes and the colliding ones the collider |
| `LegacyIntersection.CreateMeshBuilder` | Code/RoadComponent/RoadIntersectionComponent.cs:66-71 | enabling creates a fresh, clean, shadow-casting builder holding a complete build |
| `LegacyIntersection.Update` | Code/RoadComponent/RoadIntersectionComponent.cs:83-86 | a dirty builder is rebuilt and marked clean; a clean one is left exactly as it is |
| `LegacyIntersection.Disable` | Code/RoadComponent/RoadIntersectionComponent.cs:75-79 | the builder is left with no entries, no render meshes and no collider |
| `LegacyIntersection.RectangleCollides` | Code/RoadComponent/RoadIntersectionComponent.cs:108-137 | an older rectangle always has a collider, its quad's four vertices |
| `LegacyIntersection.ExitClearsRectangle` | Code/RoadComponent/RoadIntersectionComponent.cs:382-395 | a rectangle's exit sits out by at least half the width and half the length, and by one of the two |
| `ParkingLot.LotSettings.WithLinesTextureRepeat` | Code/RoadParkingLotComponent/RoadParkingLotComponent.Lines.cs:40 | the lines' texture repeat setter clamps to [1, 100000], keeps an in-range value, changes nothing else and keeps the settings valid |
| `ParkingLot.LotSettings.WithCurbsTextureRepeat` | Code/RoadParkingLotComponent/RoadParkingLotComponent.Curbs.cs:15 | the curbs' texture repeat setter clamps to [1, 100000], keeps an in-range value, changes nothing else and keeps the settings valid |
| `ParkingLot.DefaultLotValid` | Code/RoadParkingLotComponent/RoadParkingLotComponent.cs:23-39 | a new lot has valid texture repeats, ten spots and both line caps |
| `ParkingLot.SpacingBounds` | Code/RoadParkingLotComponent/RoadParkingLotComponent.cs:185-191 | with the threshold in [0.5, 1] the divisor lies in [threshold, 1], so the spacing lies between the spot width and twice it, and square spots sit exactly their width apart |
| `ParkingLot.SpacingDivisor` | Code/RoadParkingLotComponent/RoadParkingLotComponent.cs:185-191 | the divisor is never below the angle threshold |
| `ParkingLot.Spacing` | Code/RoadParkingLotComponent/RoadParkingLotComponent.cs:185-191 | with a positive threshold the spacing is exactly the spot width over the divisor |
| `ParkingLot.QuotientBelow` | Code/RoadParkingLotComponent/RoadParkingLotComponent.Lines.cs:99 | dividing a non-negative amount by a larger divisor gives no more |
| `ParkingLot.SpotsEvenlySpaced` | Code/RoadParkingLotComponent/RoadParkingLotComponent.Lines.cs:65-66 | spot origins are one spacing apart and run strictly left to right when the spacing is positive |
| `ParkingLines.LineFace` | Code/RoadParkingLotComponent/RoadParkingLotComponent.Lines.cs:74-108 | a line is one quad |
| `ParkingLines.LineGroups` | Code/RoadParkingLotComponent/RoadParkingLotComponent.Lines.cs:57-69 | boundary i holds its line when it is kept and nothing otherwise, for spotCount + 1 boundaries |
| `ParkingLines.KeptAmongClosed` | Code/RoadParkingLotComponent/RoadParkingLotComponent.Lines.cs:57-63 | among the first k boundaries all are drawn but the first without the start cap and the last without the end cap |
| `ParkingLines.DrawnPrefix` | Code/RoadParkingLotComponent/RoadParkingLotComponent.Lines.cs:57-69 | the lines written for the first k boundaries number the drawn boundaries among them |
| `ParkingLines.DrawnCount` | Code/RoadParkingLotComponent/RoadParkingLotComponent.Lines.cs:46-69 | never more lines are drawn than the spotCount + 1 declared for, and all of them exactly when both caps are on or there is no boundary |
| `ParkingLines.SkippedLines` | Code/RoadParkingLotComponent/RoadParkingLotComponent.Lines.cs:59-63 | the skipped lines are the boundaries not drawn, all quads |
| `ParkingLines.LinesCapacity` | Code/RoadParkingLotComponent/RoadParkingLotComponent.Lines.cs:46-55 | the declared totals are 4 vertices and 6 indices for each of the spotCount + 1 boundaries, and the drawn lines are their prefix |
| `ParkingLines.LinesEntryHolds` | Code/RoadParkingLotComponent/RoadParkingLotComponent.Lines.cs:44-70 | the lines entry holds exactly the drawn lines in boundary order, without collision, its buffers sized for every boundary and full only when both caps are on |
| `ParkingLines.BuildParkingLines` | Code/RoadParkingLotComponent/RoadParkingLotComponent.Lines.cs:44-70 | the lines entry becomes that entry; nothing else changes |
| `ParkingLines.EmitLines` | Code/RoadParkingLotComponent/RoadParkingLotComponent.Lines.cs:57-69 | the loop writes exactly the drawn lines, skipping the first without the start cap and the last without the end cap |
| `ParkingLines.LinePlacement` | Code/RoadParkingLotComponent/RoadParkingLotComponent.Lines.cs:74-108 | line i's first edge is centred on spot origin i raised by the offset, and its texture runs from u = 1 to 0 and from v = 0 to the length over the repeat, which never exceeds the length |
| `ParkingLines.LineSlots` | Code/RoadParkingLotComponent/RoadParkingLotComponent.Lines.cs:46-69 | the declared lines are the boundaries' groups followed by the skipped lines |
| `ParkingLines.AtBoundary` | Code/RoadParkingLotComponent/RoadParkingLotComponent.Lines.cs:65-66 | the x the loop computes for boundary i is that boundary's spot origin |
| `ParkingLines.DrawLine` | Code/RoadParkingLotComponent/RoadParkingLotComponent.Lines.cs:74-108 | writing one line advances the entry by that boundary's quad |
| `ParkingCurbs.SimpleCurbFaces` | Code/RoadParkingLotComponent/RoadParkingLotComponent.Curbs.cs:70-152 | a simple curb is five quads: top, front, back, left and right |
| `ParkingCurbs.Profile` | Code/RoadParkingLotComponent/RoadParkingLotComponent.Curbs.cs:190-202 | the profile holds S + 1 points, point j at t = j / S |
| `ParkingCurbs.ProfileEnds` | Code/RoadParkingLotComponent/RoadParkingLotComponent.Curbs.cs:181-202 | the profile starts at the front bottom corner and ends at the back bottom corner |
| `ParkingCurbs.ProfileWithin` | Code/RoadParkingLotComponent/RoadParkingLotComponent.Curbs.cs:181-202 | every profile point lies within the curb's depth and between the ground and its height |
| `ParkingCurbs.ProfileAtWithin` | Code/RoadParkingLotComponent/RoadParkingLotComponent.Curbs.cs:190-202 | each piece of the profile stays on its anchor segment: front bevel, top, back bevel |
| `ParkingCurbs.ProfileFrontToBack` | Code/RoadParkingLotComponent/RoadParkingLotComponent.Curbs.cs:190-202 | the profile never steps back in x |
| `ParkingCurbs.ProfileAtGrows` | Code/RoadParkingLotComponent/RoadParkingLotComponent.Curbs.cs:190-202 | the profile's x grows with t, within a piece and across pieces |
| `ParkingCurbs.ComputeProfile` | Code/RoadParkingLotComponent/RoadParkingLotComponent.Curbs.cs:188-202 | the profile loop fills a new array with exactly the profile's points |
| `ParkingCurbs.BodyQuad` | Code/RoadParkingLotComponent/RoadParkingLotComponent.Curbs.cs:205-233 | body segment j is a quad |
| `ParkingCurbs.CapLeft` | Code/RoadParkingLotComponent/RoadParkingLotComponent.Curbs.cs:236-252 | the left cap of segment j is a triangle |
| `ParkingCurbs.CapRight` | Code/RoadParkingLotComponent/RoadParkingLotComponent.Curbs.cs:236-252 | the right cap of segment j is a triangle |
| `ParkingCurbs.CapFaces` | Code/RoadParkingLotComponent/RoadParkingLotComponent.Curbs.cs:236-252 | k segments give 2k cap triangles |
| `ParkingCurbs.CapSlots` | Code/RoadParkingLotComponent/RoadParkingLotComponent.Curbs.cs:236-252 | segment j's left and right caps sit at slots 2j and 2j + 1 |
| `ParkingCurbs.CapsAreTriangles` | Code/RoadParkingLotComponent/RoadParkingLotComponent.Curbs.cs:236-252 | every cap face is a triangle |
| `ParkingCurbs.BodyQuads` | Code/RoadParkingLotComponent/RoadParkingLotComponent.Curbs.cs:205-233 | S body quads, quad j for segment j |
| `ParkingCurbs.BevelledCurbFaces` | Code/RoadParkingLotComponent/RoadParkingLotComponent.Curbs.cs:156-253 | a bevelled curb is 3·S faces: the bodies, then the caps |
| `ParkingCurbs.BevelledCounts` | Code/RoadParkingLotComponent/RoadParkingLotComponent.Curbs.cs:40-41 | a bevelled curb takes exactly the S·4 + S·3·2 vertices and S·6 + S·3·2 indices declared per curb |
| `ParkingCurbs.BevelledSlots` | Code/RoadParkingLotComponent/RoadParkingLotComponent.Curbs.cs:156-253 | slot j is body quad j; slots S + 2j and S + 2j + 1 are segment j's caps |
| `ParkingCurbs.CurbGroups` | Code/RoadParkingLotComponent/RoadParkingLotComponent.Curbs.cs:56-65 | one curb per spot, in spot order |
| `ParkingCurbs.CurbCounts` | Code/RoadParkingLotComponent/RoadParkingLotComponent.Curbs.cs:33-42 | every curb, box or bevelled, takes exactly the declared per-curb totals |
| `ParkingCurbs.VerticesPerCurb` | Code/RoadParkingLotComponent/RoadParkingLotComponent.Curbs.cs:33-42 | every curb declares at least the box's 20 vertices |
| `ParkingCurbs.FlattenCounts` | Code/RoadParkingLotComponent/RoadParkingLotComponent.Curbs.cs:44-51 | curbs of equal size take that size times their number together |
| `ParkingCurbs.CurbsCapacity` | Code/RoadParkingLotComponent/RoadParkingLotComponent.Curbs.cs:44-51 | all curbs take exactly the per-curb totals times the spot count declared |
| `ParkingCurbs.BuildCurbs` | Code/RoadParkingLotComponent/RoadParkingLotComponent.Curbs.cs:26-66 | without curbs or spots nothing changes; otherwise the curbs entry becomes exactly one curb per spot, filled, colliding |
| `ParkingCurbs.EmitCurbs` | Code/RoadParkingLotComponent/RoadParkingLotComponent.Curbs.cs:56-65 | the spot loop writes every curb in spot order |
| `ParkingCurbs.DrawCurb` | Code/RoadParkingLotComponent/RoadParkingLotComponent.Curbs.cs:61-64 | a simple box for one segment or fewer, the bevelled profile otherwise |
| `ParkingCurbs.CenteredAt` | Code/RoadParkingLotComponent/RoadParkingLotComponent.Curbs.cs:58-59 | the x the loop computes for spot i is the middle of that spot's width |
| `ParkingCurbs.DrawSimpleCurb` | Code/RoadParkingLotComponent/RoadParkingLotComponent.Curbs.cs:70-152 | the box's five faces are written |
| `ParkingCurbs.DrawBevelledCurb` | Code/RoadParkingLotComponent/RoadParkingLotComponent.Curbs.cs:156-253 | the profile is computed, then the body quads and the caps are written |
| `ParkingCurbs.WriteBodies` | Code/RoadParkingLotComponent/RoadParkingLotComponent.Curbs.cs:205-233 | the body loop writes one quad per segment |
| `ParkingCurbs.WriteCaps` | Code/RoadParkingLotComponent/RoadParkingLotComponent.Curbs.cs:236-252 | the cap loop writes a left and a right triangle per segment |
| `ParkingCurbs.AddBodySegment` | Code/RoadParkingLotComponent/RoadParkingLotComponent.Curbs.cs:207-232 | one segment's body quad is written |
| `ParkingCurbs.AddCapSegment` | Code/RoadParkingLotComponent/RoadParkingLotComponent.Curbs.cs:238-251 | one segment's left then right cap triangles are written |
| `ParkingLotComponent.BuildAllMeshes` | Code/RoadParkingLotComponent/RoadParkingLotComponent.cs:73-80 | the lines, then the curbs: the table and its enumeration order after both |
| `ParkingLotComponent.Rebuild` | Code/Utility/MeshBuilder.cs:164-172 | everything is rebuilt from nothing; the collider exists exactly when curbs are drawn |
| `ParkingLotComponent.CreateMeshBuilder` | Code/RoadParkingLotComponent/RoadParkingLotComponent.cs:43-53 | a fresh, clean builder that casts no shadows, holding a complete build |
| `ParkingLotComponent.Disable` | Code/RoadParkingLotComponent/RoadParkingLotComponent.cs:56-62 | the builder is left with no entries, no render meshes and no collider |
| `ParkingLotComponent.Update` | Code/RoadParkingLotComponent/RoadParkingLotComponent.cs:66-69 | a dirty builder is rebuilt and marked clean; a clean one is left exactly as it is |
| `ParkingLotComponent.ColliderIffCurbs` | Code/RoadParkingLotComponent/RoadParkingLotComponent.cs:73-80 | a freshly built lot has collision vertices exactly when it draws curbs |
| `ParkingLotComponent.LinesNeverCollide` | Code/RoadParkingLotComponent/RoadParkingLotComponent.Lines.cs:54 | the lines entry never collides |
| `ParkingLotComponent.CurbsCollide` | Code/RoadParkingLotComponent/RoadParkingLotComponent.Curbs.cs:44-51 | with a spot, the curbs entry collides and holds every curb's vertices |
| `ParkingLotComponent.LinesDrawableIff` | Code/RoadParkingLotComponent/RoadParkingLotComponent.Lines.cs:46-55 | the lines become a render mesh exactly when the spot count is at least 0 |
| `Lampposts.LampSettings.WithSpacing` | Code/RoadComponent/RoadComponent.Lampposts.cs:14 | the spacing setter clamps to [10, 100000], keeps an in-range value and changes nothing else |
| `Lampposts.DefaultLampsValid` | Code/RoadComponent/RoadComponent.Lampposts.cs:12-22 | the property defaults keep the setter's range |
| `Lampposts.LamppostCountBounds` | Code/RoadComponent/RoadComponent.Lampposts.cs:133-134 | with a positive effective length the count is at least 1 and is the effective length over the spacing rounded up |
| `Lampposts.LamppostCount` | Code/RoadComponent/RoadComponent.Lampposts.cs:133 | there is always at least one gap between samples |
| `Lampposts.SideChoice` | Code/RoadComponent/RoadComponent.Lampposts.cs:157-182 | every kept sample gets at least one post, two exactly for both sides, and alternating sides put even samples on the left and odd ones on the right |
| `Lampposts.PostsMirror` | Code/RoadComponent/RoadComponent.Lampposts.cs:184-198 | a sample's two posts are twice the lateral offset apart along the frame's right axis, with the lifted frame position as their midpoint |
| `Lampposts.SamplesSpanSpline` | Code/RoadComponent/RoadComponent.Lampposts.cs:140-143 | the first sample stands at the start, the last at the end, and samples never go backwards |
| `Lampposts.GapWithinSpacing` | Code/RoadComponent/RoadComponent.Lampposts.cs:133-143 | with no free ends neighbouring samples are length over count apart, never more than the spacing |
| `Lampposts.AllSamplesKept` | Code/RoadComponent/RoadComponent.Lampposts.cs:140-147 | with no free ends every sample is kept, so k samples stand exactly k times the posts per sample |
| `Lampposts.PostsInWindow` | Code/RoadComponent/RoadComponent.Lampposts.cs:140-198 | every post stands at a sample inside the window, on a side its sample's choice names |
| `Lampposts.LampsAt` | Code/RoadComponent/RoadComponent.Lampposts.cs:140-198 | a sample stands at most two posts |
| `Lampposts.PlannedLampposts` | Code/RoadComponent/RoadComponent.Lampposts.cs:84-198 | no post when the free ends leave no length, and never more than two per sample |
| `Lampposts.SimplifiedPositions` | Code/RoadComponent/RoadComponent.Lampposts.cs:123-131 | one frame and arc length per kept boundary |
| `Lampposts.SimplifyPositions` | Code/RoadComponent/RoadComponent.Lampposts.cs:123-131 | the loop collects exactly those positions |
| `Lampposts.UnsimplifiedPositions` | Code/RoadComponent/RoadComponent.Lampposts.cs:115-131 | without simplification every boundary is kept, entry j at arc length j / n of the spline |
| `Lampposts.AtSample` | Code/RoadComponent/RoadComponent.Lampposts.cs:142-143 | the loop's sample distance is sample i's distance |
| `Lampposts.LamppostRow.constructor` | Code/RoadComponent/RoadComponent.Lampposts.cs:10 | a component starts with no posts and no pending rebuild |
| `Lampposts.LamppostRow.MarkForRebuild` | Code/RoadComponent/RoadComponent.Lampposts.cs:34-37 | toggling the feature or setting a property marks a rebuild pending and leaves the posts |
| `Lampposts.LamppostRow.RemoveLampposts` | Code/RoadComponent/RoadComponent.Lampposts.cs:53-68 | every post is removed, except in play mode, which keeps them |
| `Lampposts.LamppostRow.BuildLampposts` | Code/RoadComponent/RoadComponent.Lampposts.cs:84-200 | outside play mode the planned posts are appended; in play mode nothing changes |
| `Lampposts.LamppostRow.StandPosts` | Code/RoadComponent/RoadComponent.Lampposts.cs:140-199 | the placement loop appends the posts of every sample in sample order |
| `Lampposts.LamppostRow.PlacePosts` | Code/RoadComponent/RoadComponent.Lampposts.cs:157-198 | the side switch returns the left then the right post its side choice asks for |
| `Lampposts.LamppostRow.CreateLampposts` | Code/RoadComponent/RoadComponent.Lampposts.cs:41-49 | outside play mode the row becomes exactly the planned posts when the feature is on with a prefab, and empty otherwise; in play mode it is unchanged |
| `Lampposts.LamppostRow.UpdateLampposts` | Code/RoadComponent/RoadComponent.Lampposts.cs:72-80 | a pending rebuild re-creates the posts and is cleared; otherwise nothing changes |

## Left out

- **Engine types and calls.** Meshes, models, scene objects, bounding boxes, material loading and the physics collider component are left out. `BuildModel` and `BuildCollider` produce the lists they would hand to the engine.
- **Rotations.** `Rotation.LookAt`, the exit and lamppost rotations (`CalculateLamppostRotation`) and the transforms' rotation parts are not modelled; only positions and yaw angles are.
- **Frame orientation maths.** The rotation-minimizing normal, the rotation about an axis and the parallel transport of the up vector are spline parameters. The model keeps the frames' sample distances and positions, not their orientations.
- **Transcendental functions.** Normalisation, vector length, near-zero tests, `acos`, `atan`, `sin`, `cos` and yaw-to-direction are parameters with range facts only.
- **Division by zero.** A float division by zero, which gives an infinity or NaN in C#, is an opaque value.
- **`InterpolateFrameAtDistance`.** This helper of the lamppost build is not part of this model. It is a parameter.
- **Play mode.** Play-mode detection (loading screen or game running) is a boolean parameter.
- **Prefab spawning.** Parking-spot prefabs (`CreateParkingSpots`, `RemoveParkingSpots`), `SnapToGround`, `CreateLamppost` and the prefab validity test are not modelled. A placed lamppost is recorded as a position and a side, and the prefab test is a flag.
- **Other features.** Decals, crosswalks, traffic lights, `SnapNearbyRoads`, editor gizmos and all editor tools are left out. They spawn or move scene objects, or draw editor UI.
- **Unread exit flag.** The older intersection's exit flag `HasSidewalk` is read by no build.
- **Negative spot counts.** A spot count below -1 is excluded by `requires`, because the lines entry would then be declared with negative sizes. C# would throw when allocating the arrays.
- **Numeric limits.** 32-bit integer overflow and float rounding are not modelled. Integers are unbounded and floats are reals.
- **Rebuild delegates.** `MeshBuilder.Update` and `Rebuild` invoke a build delegate. They are modelled once per component, with that component's build callback inlined. Unsubscribing the callback when a component is disabled is not modelled; only the `Clear` that follows it is.
- **Submesh storage.** A submesh is a value: sequences and cursors kept in the builder's map. The model does not capture in-place array writes shared through aliases.
- **Lane definitions.** The source of `LaneDefinition` is not part of this model. The model reads its material, dash spacing and dash fill ratio as given, unclamped. An empty slot in the array is modelled: the lanes' pre-pass reads its dash spacing without a null check, so the build throws before declaring anything (`Lanes.LanesThrow`). Only where the exception goes next is modelled (the rebuild stops, and the update leaves the builder dirty); the engine's handling of it is not.
- **Line and lane toggles.** `OnHasLanesChanged` only marks the builder dirty. `CreateLines`, `UpdateLines`, `RemoveLines` and `OnHasLinesChanged` are not modelled, because nothing calls them.
- Meshes.MeshBuilder.AddTriangle: writing past an entry's declared capacity throws in C# (`IndexOutOfRangeException` at the buffer write); the model excludes it by `requires` that the entry has room for three more vertices and indices, and every builder in the model proves that room exists.
- Meshes.MeshBuilder.AddQuad: the same overflow throw for four vertices and six indices is excluded by `requires`; every builder proves the room exists.
- IntersectionComponent.CircleExitOnRim: states the exit position only, not its look-at rotation.
- RectangleIntersection.ExitPlacement: states the transform's position and yaw through `ExitOnRoadEdge`, `ExitSidewalkShift` and `OppositeExits`; the rotation is kept as a yaw angle relative to the component's axes.
