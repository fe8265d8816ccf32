/**
  Painted markings along the road: the lines and the lanes. Each family lays
  n markings across the road, marking k at offset (k+1)·W/(n+1) − W/2 from the
  centre line. A marking is walked segment by segment with a dash accumulator
  that is never reset. A pre-pass counts the dashes of every marking, an entry
  "line_k" or "lane_k" is declared with room for exactly that many quads, and
  a final pass writes one quad per dash. The two families differ only in their
  step rule, the definitions they read and the entry prefix.
*/
module Markings {
  import opened Wrappers
  import opened Geometry
  import opened Meshes
  import opened RoadLayout
  import opened LineDefinitions
  import opened Dashes

  /** The material of a marking whose definition sets none. */
  const DefaultMarkingMaterial := Material("materials/default.vmat")

  /** One marking: its dash pattern, its material and its offset to the right of the centre line. */
  datatype Marking = Marking(pattern: Pattern, material: Material, offset: real)

  /**
    The properties of one family of markings: whether it is enabled, the
    height above the road (`LinesOffset`), the strip width, the extra spacing
    added to the road width, and the inches per texture repeat.
  */
  datatype MarkingSettings = MarkingSettings(enabled: bool, offset: real, width: real, extraSpacing: real, textureRepeat: real)
  {
    ghost predicate Valid() {
      1.0 <= textureRepeat <= 100000.0
    }

    /** The texture repeat setter: clamps to [1, 100000] and changes nothing else. */
    function SetTextureRepeat(v: real): (r: MarkingSettings)
      ensures 1.0 <= r.textureRepeat <= 100000.0
      ensures 1.0 <= v <= 100000.0 ==> r.textureRepeat == v
      ensures r.(textureRepeat := textureRepeat) == this
      ensures r.Valid()
    {
      this.(textureRepeat := Clamp(v, 1.0, 100000.0))
    }
  }

  /**
    Everything a marking family's passes read: the step rule, the entry name
    prefix, the markings, the height, the strip width and the texture repeat.
  */
  datatype MarkingSet = MarkingSet(rule: Rule, prefix: string, marks: seq<Marking>,
                                   height: real, width: real, repeat: real)
  {
    ghost predicate Valid() {
      repeat >= 1.0
    }
  }

  /** The name of marking k's entry, `$"{prefix}{k}"`. */
  function MarkingKey(ms: MarkingSet, k: nat): Key {
    Numbered(ms.prefix, k)
  }


  /** The centre line of marking k over kept segment i, from its near to its far boundary. */
  datatype Span = Span(center0: Vec3, center1: Vec3, length: real, dir: Vec3, right: Vec3, up: Vec3, forward: Vec3)

  /**
    Marking k's strip over kept segment i: both boundary frames moved right by
    the marking's offset and up by the height, the distance between those
    centres, their direction, and the near frame's right and up vectors with
    the chord direction as tangent.
  */
  function SpanOf(ms: MarkingSet, layout: Layout, m: Maths, k: int, i: int): Span
    requires layout.Valid() && 0 <= i < layout.Count() && 0 <= k < |ms.marks|
  {
    var f0 := layout.frames[layout.keep[i]];
    var f1 := layout.frames[layout.keep[i + 1]];
    var offset := ms.marks[k].offset;
    var center0 := Add(Add(f0.position, Scale(f0.right, offset)), Scale(f0.up, ms.height));
    var center1 := Add(Add(f1.position, Scale(f1.right, offset)), Scale(f1.up, ms.height));
    Span(center0, center1, m.Distance(center0, center1), m.normal(Sub(center1, center0)),
         f0.right, f0.up, m.normal(Sub(f1.position, f0.position)))
  }

  /** The point on a span's centre line at accumulator x, when the span starts at accumulator `from`. */
  function Along(sp: Span, from: real, x: real): Vec3 {
    Add(sp.center0, Scale(sp.dir, x - from))
  }

  /** Stepping along the direction by s moves the point from accumulator x to x + s. */
  lemma AlongStep(sp: Span, from: real, x: real, s: real)
    ensures Add(Along(sp, from, x), Scale(sp.dir, s)) == Along(sp, from, x + s)
    ensures Along(sp, from, from) == sp.center0
  {
  }

  /**
    The quad of one dash between centre points `cur` and `next`: corners half
    the strip width to the left and right along the near frame's right vector,
    the near frame's up vector as every normal, U 0 on the left and 1 on the
    right, and V the dash's accumulator range in texture repeats.
  */
  function DashFace(ms: MarkingSet, sp: Span, cur: Vec3, next: Vec3, pos: real, len: real): (r: Face)
    requires ms.Valid()
    ensures r.Quad? && r.uvA.x == 0.0 && r.uvB.x == 1.0
    ensures r.uvA.y == r.uvB.y && r.uvC.y == r.uvD.y
    ensures len > 0.0 ==> r.uvA.y < r.uvD.y
  {
    QuotientOrder(pos, pos + len, ms.repeat);
    var halfWidth := ms.width * 0.5;
    var v0 := pos / ms.repeat;
    var v1 := (pos + len) / ms.repeat;
    Quad(Sub(cur, Scale(sp.right, halfWidth)), Add(cur, Scale(sp.right, halfWidth)),
         Add(next, Scale(sp.right, halfWidth)), Sub(next, Scale(sp.right, halfWidth)),
         sp.up, sp.up, sp.up, sp.up,
         sp.forward,
         Vec2(0.0, v0), Vec2(1.0, v0), Vec2(1.0, v1), Vec2(0.0, v1))
  }

  /** Marking k's accumulator when its walk reaches kept boundary i. */
  function Accumulated(ms: MarkingSet, layout: Layout, m: Maths, k: int, i: int): (r: real)
    requires layout.Valid() && 0 <= i <= layout.Count() && 0 <= k < |ms.marks|
    ensures r >= 0.0
  {
    if i == 0 then 0.0
    else WalkSegment(ms.rule, ms.marks[k].pattern, Accumulated(ms, layout, m, k, i - 1), SpanOf(ms, layout, m, k, i - 1).length).end
  }

  /** Marking k's walk over kept segment i. */
  function SegmentWalk(ms: MarkingSet, layout: Layout, m: Maths, k: int, i: int): Walk
    requires layout.Valid() && 0 <= i < layout.Count() && 0 <= k < |ms.marks|
  {
    WalkSegment(ms.rule, ms.marks[k].pattern, Accumulated(ms, layout, m, k, i), SpanOf(ms, layout, m, k, i).length)
  }

  /** A quotient by a positive divisor keeps the order of its dividends. */
  lemma QuotientOrder(a: real, b: real, c: real)
    requires c > 0.0
    ensures a <= b ==> a / c <= b / c
    ensures a < b ==> a / c < b / c
  {
  }

  /**
    Quads textured along dashes: quad j is a quad whose V runs, in texture
    repeats, from dash j's start on its first two corners to dash j's end on
    its last two.
  */
  ghost predicate Textured(fs: seq<Face>, ds: seq<Dash>, repeat: real) {
    && repeat > 0.0
    && |fs| == |ds|
    && forall j :: 0 <= j < |fs| ==>
         && fs[j].Quad?
         && fs[j].uvA.y == ds[j].start / repeat && fs[j].uvB.y == ds[j].start / repeat
         && fs[j].uvC.y == (ds[j].start + ds[j].length) / repeat && fs[j].uvD.y == (ds[j].start + ds[j].length) / repeat
  }

  /** The quads of a walk's dashes along a span whose near end is at accumulator `from`: one per dash. */
  function WalkFaces(ms: MarkingSet, sp: Span, from: real, ds: seq<Dash>): (r: seq<Face>)
    requires ms.Valid()
    ensures |r| == |ds|
    ensures forall j :: 0 <= j < |r| ==> r[j].Quad?
    ensures Textured(r, ds, ms.repeat)
  {
    seq(|ds|, j requires 0 <= j < |ds| =>
      DashFace(ms, sp, Along(sp, from, ds[j].start), Along(sp, from, ds[j].start + ds[j].length), ds[j].start, ds[j].length))
  }

  /** The quads of marking k over kept segment i: one per dash of its walk. */
  function SegmentFaces(ms: MarkingSet, layout: Layout, m: Maths, k: int, i: int): seq<Face>
    requires ms.Valid() && layout.Valid() && 0 <= i < layout.Count() && 0 <= k < |ms.marks|
  {
    WalkFaces(ms, SpanOf(ms, layout, m, k, i), Accumulated(ms, layout, m, k, i), SegmentWalk(ms, layout, m, k, i).dashes)
  }

  /** Marking k's quads, kept segment by kept segment. */
  function SegmentGroups(ms: MarkingSet, layout: Layout, m: Maths, k: int): (r: seq<seq<Face>>)
    requires ms.Valid() && layout.Valid() && 0 <= k < |ms.marks|
    ensures |r| == layout.Count()
  {
    seq(layout.Count(), i requires 0 <= i < layout.Count() => SegmentFaces(ms, layout, m, k, i))
  }

  /** The quads of marking k over the first i kept segments, in emission order. */
  function MarkingFaces(ms: MarkingSet, layout: Layout, m: Maths, k: int, i: int): seq<Face>
    requires ms.Valid() && layout.Valid() && 0 <= i <= layout.Count() && 0 <= k < |ms.marks|
  {
    Flatten(SegmentGroups(ms, layout, m, k)[..i])
  }

  /** The dashes of marking k over the first i kept segments. */
  function MarkingDashes(ms: MarkingSet, layout: Layout, m: Maths, k: int, i: int): seq<Dash>
    requires layout.Valid() && 0 <= i <= layout.Count() && 0 <= k < |ms.marks|
  {
    if i == 0 then []
    else MarkingDashes(ms, layout, m, k, i - 1) + SegmentWalk(ms, layout, m, k, i - 1).dashes
  }

  /** The number of marking k's dashes over the first i kept segments. */
  function DashCount(ms: MarkingSet, layout: Layout, m: Maths, k: int, i: int): nat
    requires layout.Valid() && 0 <= i <= layout.Count() && 0 <= k < |ms.marks|
  {
    if i == 0 then 0
    else DashCount(ms, layout, m, k, i - 1) + |SegmentWalk(ms, layout, m, k, i - 1).dashes|
  }

  /** All of marking k's quads. */
  function AllFaces(ms: MarkingSet, layout: Layout, m: Maths, k: int): seq<Face>
    requires ms.Valid() && layout.Valid() && 0 <= k < |ms.marks|
  {
    MarkingFaces(ms, layout, m, k, layout.Count())
  }

  /** Marking k's finished entry: exactly its quads, without collision. */
  function MarkingEntry(ms: MarkingSet, layout: Layout, m: Maths, k: int): SubMesh
    requires ms.Valid() && layout.Valid() && 0 <= k < |ms.marks|
  {
    Filled(AllFaces(ms, layout, m, k), ms.marks[k].material, false)
  }

  /** How many of marking k's quads lie over the first i kept segments. */
  function FacesBefore(ms: MarkingSet, layout: Layout, m: Maths, k: int, i: int): (w: nat)
    requires ms.Valid() && layout.Valid() && 0 <= i <= layout.Count() && 0 <= k < |ms.marks|
    ensures w <= |AllFaces(ms, layout, m, k)|
    ensures AllFaces(ms, layout, m, k)[..w] == MarkingFaces(ms, layout, m, k, i)
  {
    var groups := SegmentGroups(ms, layout, m, k);
    FlattenPrefix(groups, i, |groups|);
    assert groups[..|groups|] == groups;
    |MarkingFaces(ms, layout, m, k, i)|
  }

  /** Marking k's quads over kept segment i occupy slots FacesBefore(k, i) up to FacesBefore(k, i + 1) of all its quads. */
  lemma SegmentSlice(ms: MarkingSet, layout: Layout, m: Maths, k: int, i: int)
    requires ms.Valid() && layout.Valid() && 0 <= i < layout.Count() && 0 <= k < |ms.marks|
    ensures FacesBefore(ms, layout, m, k, i) + |SegmentFaces(ms, layout, m, k, i)| == FacesBefore(ms, layout, m, k, i + 1)
    ensures AllFaces(ms, layout, m, k)[FacesBefore(ms, layout, m, k, i)..FacesBefore(ms, layout, m, k, i + 1)]
            == SegmentFaces(ms, layout, m, k, i)
  {
    var groups := SegmentGroups(ms, layout, m, k);
    FlattenGroup(groups, i);
    assert groups[..|groups|] == groups;
  }

  /** Every quad of a marking is a quad. */
  lemma MarkingQuads(ms: MarkingSet, layout: Layout, m: Maths, k: int)
    requires ms.Valid() && layout.Valid() && 0 <= k < |ms.marks|
    ensures forall j :: 0 <= j < |AllFaces(ms, layout, m, k)| ==> AllFaces(ms, layout, m, k)[j].Quad?
  {
    var groups := SegmentGroups(ms, layout, m, k);
    FlattenQuads(groups);
    assert groups[..|groups|] == groups;
  }

  // ------------------------------------------------------------ the entry table

  /** The names prefix+0 .. prefix+(n-1). */
  function NumberedKeys(prefix: string, n: nat): set<Key> {
    set j: nat | j < n :: Numbered(prefix, j)
  }

  /** `table` with entries[k] stored under the name prefix+k, for every k. */
  ghost function Overlay(table: map<Key, SubMesh>, prefix: string, entries: seq<SubMesh>): map<Key, SubMesh>
  {
    map key | key in table.Keys + NumberedKeys(prefix, |entries|) ::
      if key.Numbered? && key.prefix == prefix && key.index < |entries| then entries[key.index] else table[key]
  }

  /** The overlay holds the table's names and prefix+k for every k, with entries[k] under prefix+k and the table's entry elsewhere. */
  lemma OverlayLookup(table: map<Key, SubMesh>, prefix: string, entries: seq<SubMesh>, key: Key)
    ensures var mine := key.Numbered? && key.prefix == prefix && key.index < |entries|;
            && (key in Overlay(table, prefix, entries) <==> mine || key in table)
            && (mine ==> Overlay(table, prefix, entries)[key] == entries[key.index])
            && (!mine && key in table ==> Overlay(table, prefix, entries)[key] == table[key])
  {
    if key.Numbered? && key.prefix == prefix && key.index < |entries| {
      assert key == Numbered(prefix, key.index);
    }
  }

  /** Replacing entry k of the overlay is overlaying the entries with entry k replaced. */
  lemma OverlayUpdate(table: map<Key, SubMesh>, prefix: string, entries: seq<SubMesh>, k: nat, s: SubMesh)
    requires k < |entries|
    ensures Overlay(table, prefix, entries)[Numbered(prefix, k) := s] == Overlay(table, prefix, entries[k := s])
  {
    var a := Overlay(table, prefix, entries)[Numbered(prefix, k) := s];
    var b := Overlay(table, prefix, entries[k := s]);
    forall key
      ensures key in a <==> key in b
      ensures key in a ==> a[key] == b[key]
    {
      OverlayLookup(table, prefix, entries, key);
      OverlayLookup(table, prefix, entries[k := s], key);
    }
  }

  /** Declaring prefix+k over the overlay of the first k entries gives the overlay of the first k + 1, and prefix+k was there before only if the table had it. */
  lemma OverlayExtend(table: map<Key, SubMesh>, prefix: string, entries: seq<SubMesh>, k: nat)
    requires k < |entries|
    ensures Overlay(table, prefix, entries[..k])[Numbered(prefix, k) := entries[k]] == Overlay(table, prefix, entries[..k + 1])
    ensures Numbered(prefix, k) in Overlay(table, prefix, entries[..k]) <==> Numbered(prefix, k) in table
  {
    OverlayLookup(table, prefix, entries[..k], Numbered(prefix, k));
    assert entries[..k + 1][..k] == entries[..k];
  }

  /** Overlaying well-formed entries over the names of a well-formed overlay of as many entries keeps the table well formed. */
  lemma OverlayValid(table: map<Key, SubMesh>, prefix: string, before: seq<SubMesh>, after: seq<SubMesh>, order: seq<Key>)
    requires TableValid(Overlay(table, prefix, before), order)
    requires |before| == |after| && forall j :: 0 <= j < |after| ==> after[j].Valid()
    ensures TableValid(Overlay(table, prefix, after), order)
  {
    var a := Overlay(table, prefix, before);
    var b := Overlay(table, prefix, after);
    forall key
      ensures key in a <==> key in b
      ensures key in b ==> b[key].Valid()
    {
      OverlayLookup(table, prefix, before, key);
      OverlayLookup(table, prefix, after, key);
    }
    assert a.Keys == b.Keys;
  }

  /** The enumeration order after declaring prefix+0 .. prefix+(n-1) over `table`: each name not already present is appended. */
  function OverlayOrder(table: map<Key, SubMesh>, order: seq<Key>, prefix: string, n: nat): seq<Key>
  {
    if n == 0 then order
    else
      var before := OverlayOrder(table, order, prefix, n - 1);
      if Numbered(prefix, n - 1) in table then before else before + [Numbered(prefix, n - 1)]
  }

  // ------------------------------------------------------------ the passes

  /** What the pre-pass declares for each marking: four vertices and six indices per counted quad, without collision. */
  function Declarations(ms: MarkingSet, counts: seq<int>): (r: seq<SubMesh>)
    requires |counts| == |ms.marks| && forall k :: 0 <= k < |counts| ==> counts[k] >= 0
    ensures |r| == |ms.marks|
  {
    seq(|ms.marks|, k requires 0 <= k < |ms.marks| => NewSubMesh(counts[k] * 4, counts[k] * 6, ms.marks[k].material, false))
  }

  /** Every marking's entry once segment i has been walked for the markings before k: the quads written so far. */
  ghost function Progressed(ms: MarkingSet, layout: Layout, m: Maths, i: int, k: int): (r: seq<SubMesh>)
    requires ms.Valid() && layout.Valid() && 0 <= i <= layout.Count() && 0 <= k <= |ms.marks|
    requires k > 0 ==> i < layout.Count()
    ensures |r| == |ms.marks|
  {
    seq(|ms.marks|, j requires 0 <= j < |ms.marks| =>
      Partial(AllFaces(ms, layout, m, j), FacesBefore(ms, layout, m, j, if j < k then i + 1 else i), ms.marks[j].material, false))
  }

  /** Every marking's finished entry. */
  function MarkingEntries(ms: MarkingSet, layout: Layout, m: Maths): (r: seq<SubMesh>)
    requires ms.Valid() && layout.Valid()
    ensures |r| == |ms.marks|
  {
    seq(|ms.marks|, k requires 0 <= k < |ms.marks| => MarkingEntry(ms, layout, m, k))
  }

  /** Every marking's dash count once segment i has been walked for the markings before k. */
  function CountsAt(ms: MarkingSet, layout: Layout, m: Maths, i: int, k: int): (r: seq<int>)
    requires layout.Valid() && 0 <= i <= layout.Count() && 0 <= k <= |ms.marks|
    requires k > 0 ==> i < layout.Count()
    ensures |r| == |ms.marks|
  {
    seq(|ms.marks|, j requires 0 <= j < |ms.marks| => DashCount(ms, layout, m, j, if j < k then i + 1 else i))
  }

  /** Every marking's accumulator once segment i has been walked for the markings before k. */
  function AccumulatedAt(ms: MarkingSet, layout: Layout, m: Maths, i: int, k: int): (r: seq<real>)
    requires layout.Valid() && 0 <= i <= layout.Count() && 0 <= k <= |ms.marks|
    requires k > 0 ==> i < layout.Count()
    ensures |r| == |ms.marks|
  {
    seq(|ms.marks|, j requires 0 <= j < |ms.marks| => Accumulated(ms, layout, m, j, if j < k then i + 1 else i))
  }

  /** Walking marking k over segment i advances exactly its count and accumulator. */
  lemma CountedNext(ms: MarkingSet, layout: Layout, m: Maths, i: int, k: int)
    requires layout.Valid() && 0 <= i < layout.Count() && 0 <= k < |ms.marks|
    ensures CountsAt(ms, layout, m, i, k)[k] == DashCount(ms, layout, m, k, i)
    ensures AccumulatedAt(ms, layout, m, i, k)[k] == Accumulated(ms, layout, m, k, i)
    ensures CountsAt(ms, layout, m, i, k)[k := DashCount(ms, layout, m, k, i + 1)] == CountsAt(ms, layout, m, i, k + 1)
    ensures AccumulatedAt(ms, layout, m, i, k)[k := Accumulated(ms, layout, m, k, i + 1)] == AccumulatedAt(ms, layout, m, i, k + 1)
  {
  }

  /** Once every marking has walked segment i, the state is the one before segment i + 1. */
  lemma CountedWraps(ms: MarkingSet, layout: Layout, m: Maths, i: int)
    requires layout.Valid() && 0 <= i < layout.Count()
    ensures CountsAt(ms, layout, m, i, |ms.marks|) == CountsAt(ms, layout, m, i + 1, 0)
    ensures AccumulatedAt(ms, layout, m, i, |ms.marks|) == AccumulatedAt(ms, layout, m, i + 1, 0)
  {
  }

  /**
    The pre-pass: walks every marking over every kept segment with its own
    accumulator and counts the dashes, leaving marking k's count and
    accumulator in `counts[k]` and `dists[k]`.
  */
  method CountPass(ms: MarkingSet, layout: Layout, m: Maths, counts: array<int>, dists: array<real>)
    requires ms.Valid() && layout.Valid()
    requires counts.Length == |ms.marks| && dists.Length == |ms.marks|
    requires forall j :: 0 <= j < counts.Length ==> counts[j] == 0 && dists[j] == 0.0
    modifies counts, dists
    ensures forall j :: 0 <= j < counts.Length ==> counts[j] == DashCount(ms, layout, m, j, layout.Count())
    ensures forall j :: 0 <= j < dists.Length ==> dists[j] == Accumulated(ms, layout, m, j, layout.Count())
  {
    CountedStart(ms, layout, m, counts[..], dists[..]);
    var i := 0;
    while i < |layout.keep| - 1
      invariant 0 <= i <= layout.Count()
      invariant counts[..] == CountsAt(ms, layout, m, i, 0) && dists[..] == AccumulatedAt(ms, layout, m, i, 0)
    {
      CountSegment(ms, layout, m, i, counts, dists);
      CountedWraps(ms, layout, m, i);
      i := i + 1;
    }
    CountedDone(ms, layout, m, i, counts[..], dists[..]);
  }

  /** Before any segment every count and accumulator is zero. */
  lemma CountedStart(ms: MarkingSet, layout: Layout, m: Maths, counts: seq<int>, dists: seq<real>)
    requires layout.Valid() && |counts| == |ms.marks| && |dists| == |ms.marks|
    requires forall j :: 0 <= j < |counts| ==> counts[j] == 0 && dists[j] == 0.0
    ensures counts == CountsAt(ms, layout, m, 0, 0) && dists == AccumulatedAt(ms, layout, m, 0, 0)
  {
    forall j | 0 <= j < |counts|
      ensures CountsAt(ms, layout, m, 0, 0)[j] == 0 && AccumulatedAt(ms, layout, m, 0, 0)[j] == 0.0
    {
      assert CountsAt(ms, layout, m, 0, 0)[j] == DashCount(ms, layout, m, j, 0) == 0;
      assert AccumulatedAt(ms, layout, m, 0, 0)[j] == Accumulated(ms, layout, m, j, 0) == 0.0;
    }
  }

  /** The state after the last kept segment holds every marking's total count and final accumulator. */
  lemma CountedDone(ms: MarkingSet, layout: Layout, m: Maths, i: int, counts: seq<int>, dists: seq<real>)
    requires layout.Valid() && i == layout.Count()
    requires counts == CountsAt(ms, layout, m, i, 0) && dists == AccumulatedAt(ms, layout, m, i, 0)
    ensures forall j :: 0 <= j < |counts| ==> counts[j] == DashCount(ms, layout, m, j, layout.Count())
    ensures forall j :: 0 <= j < |dists| ==> dists[j] == Accumulated(ms, layout, m, j, layout.Count())
  {
  }

  /** One kept segment of the pre-pass: every marking in turn. */
  method CountSegment(ms: MarkingSet, layout: Layout, m: Maths, i: int, counts: array<int>, dists: array<real>)
    requires ms.Valid() && layout.Valid() && 0 <= i < layout.Count()
    requires counts.Length == |ms.marks| && dists.Length == |ms.marks|
    requires counts[..] == CountsAt(ms, layout, m, i, 0) && dists[..] == AccumulatedAt(ms, layout, m, i, 0)
    modifies counts, dists
    ensures counts[..] == CountsAt(ms, layout, m, i, |ms.marks|) && dists[..] == AccumulatedAt(ms, layout, m, i, |ms.marks|)
  {
    var k := 0;
    while k < |ms.marks|
      invariant 0 <= k <= |ms.marks|
      invariant counts[..] == CountsAt(ms, layout, m, i, k) && dists[..] == AccumulatedAt(ms, layout, m, i, k)
    {
      CountedNext(ms, layout, m, i, k);
      CountMarking(ms, layout, m, i, k, counts, dists);
      k := k + 1;
    }
  }

  /** Marking k's turn in the pre-pass over kept segment i: its count and accumulator advance past the segment. */
  method CountMarking(ms: MarkingSet, layout: Layout, m: Maths, i: int, k: int, counts: array<int>, dists: array<real>)
    requires ms.Valid() && layout.Valid() && 0 <= i < layout.Count() && 0 <= k < |ms.marks|
    requires counts.Length == |ms.marks| && dists.Length == |ms.marks|
    requires counts[k] == DashCount(ms, layout, m, k, i) && dists[k] == Accumulated(ms, layout, m, k, i)
    modifies counts, dists
    ensures counts[..] == old(counts[..])[k := DashCount(ms, layout, m, k, i + 1)]
    ensures dists[..] == old(dists[..])[k := Accumulated(ms, layout, m, k, i + 1)]
  {
    var sp := SpanOf(ms, layout, m, k, i);
    SegmentCounted(ms, layout, m, k, i);
    CountDashes(ms.rule, ms.marks[k].pattern, sp.length, k, counts, dists);
    Updated(old(counts[..]), counts[..], k);
    Updated(old(dists[..]), dists[..], k);
  }

  /** Walking kept segment i adds that segment's dashes to marking k's count and moves its accumulator to the walk's end. */
  lemma SegmentCounted(ms: MarkingSet, layout: Layout, m: Maths, k: int, i: int)
    requires layout.Valid() && 0 <= i < layout.Count() && 0 <= k < |ms.marks|
    ensures var walk := WalkSegment(ms.rule, ms.marks[k].pattern, Accumulated(ms, layout, m, k, i), SpanOf(ms, layout, m, k, i).length);
            && DashCount(ms, layout, m, k, i + 1) == DashCount(ms, layout, m, k, i) + |walk.dashes|
            && Accumulated(ms, layout, m, k, i + 1) == walk.end
  {
  }

  /** A list that differs from another only at slot k is that list with slot k replaced. */
  lemma Updated<T>(before: seq<T>, after: seq<T>, k: int)
    requires |before| == |after| && 0 <= k < |after|
    requires forall j :: 0 <= j < |after| && j != k ==> after[j] == before[j]
    ensures after == before[k := after[k]]
  {
  }

  /**
    The pre-pass's dash loop for marking k over one segment of the given
    length: counts the steps that lie in a dash and advances the marking's
    accumulator, exactly as the segment's walk does.
  */
  method CountDashes(rule: Rule, pattern: Pattern, length: real, k: int, counts: array<int>, dists: array<real>)
    requires 0 <= k < counts.Length && k < dists.Length && dists[k] >= 0.0
    modifies counts, dists
    ensures counts[k] == old(counts[k]) + |WalkSegment(rule, pattern, old(dists[k]), length).dashes|
    ensures dists[k] == WalkSegment(rule, pattern, old(dists[k]), length).end
    ensures forall j :: 0 <= j < counts.Length && j != k ==> counts[j] == old(counts[j])
    ensures forall j :: 0 <= j < dists.Length && j != k ==> dists[j] == old(dists[j])
  {
    var remaining := length;
    ghost var whole := WalkSegment(rule, pattern, dists[k], length);
    while remaining > MinRemaining
      invariant dists[k] >= 0.0
      invariant var w := WalkSegment(rule, pattern, dists[k], remaining);
                && counts[k] + |w.dashes| == old(counts[k]) + |whole.dashes| && w.end == whole.end
      invariant forall j :: 0 <= j < counts.Length && j != k ==> counts[j] == old(counts[j])
      invariant forall j :: 0 <= j < dists.Length && j != k ==> dists[j] == old(dists[j])
      decreases StepsLeft(rule, pattern, dists[k], remaining)
    {
      var pos := dists[k];
      var step := StepOf(rule, pattern, pos, remaining);
      WalkStep(rule, pattern, pos, remaining);
      if step.inDash {
        counts[k] := counts[k] + 1;
      }
      dists[k] := pos + step.length;
      remaining := remaining - step.length;
    }
    WalkDone(rule, pattern, dists[k], remaining);
  }

  /**
    Declares every marking's entry with the counted totals, in marking order,
    without collision.
  */
  method DeclareMarkings(builder: MeshBuilder, ms: MarkingSet, counts: array<int>)
    requires builder.Valid() && counts.Length == |ms.marks|
    requires forall k :: 0 <= k < counts.Length ==> counts[k] >= 0
    modifies builder
    ensures builder.Valid()
    ensures builder.subMeshes == Overlay(old(builder.subMeshes), ms.prefix, Declarations(ms, counts[..]))
    ensures builder.order == OverlayOrder(old(builder.subMeshes), old(builder.order), ms.prefix, |ms.marks|)
    ensures builder.isDirty == old(builder.isDirty) && builder.castShadows == old(builder.castShadows)
    ensures builder.meshes == old(builder.meshes) && builder.collider == old(builder.collider)
  {
    ghost var table := builder.subMeshes;
    ghost var decls := Declarations(ms, counts[..]);
    ghost var orders := OrdersOf(table, builder.order, ms.prefix, |ms.marks|);
    var k := 0;
    while k < |ms.marks|
      invariant 0 <= k <= |ms.marks|
      invariant builder.Valid()
      invariant builder.subMeshes == Overlay(table, ms.prefix, decls[..k])
      invariant builder.order == orders[k]
      invariant builder.isDirty == old(builder.isDirty) && builder.castShadows == old(builder.castShadows)
      invariant builder.meshes == old(builder.meshes) && builder.collider == old(builder.collider)
    {
      DeclareMarking(builder, ms, counts[k], k, table, old(builder.order), decls, orders);
      k := k + 1;
    }
    assert k == |ms.marks| && decls[..k] == decls;
    assert orders[k] == OverlayOrder(table, old(builder.order), ms.prefix, k);
  }

  /** Declares marking k's entry, four vertices and six indices per counted quad, over the first k declarations. */
  method DeclareMarking(builder: MeshBuilder, ms: MarkingSet, count: int, k: int,
                        ghost table: map<Key, SubMesh>, ghost order: seq<Key>, ghost decls: seq<SubMesh>, ghost orders: seq<seq<Key>>)
    requires builder.Valid() && 0 <= k < |ms.marks| == |decls| && count >= 0
    requires decls[k] == NewSubMesh(count * 4, count * 6, ms.marks[k].material, false)
    requires Orders(orders, table, order, ms.prefix, |ms.marks|)
    requires builder.subMeshes == Overlay(table, ms.prefix, decls[..k])
    requires builder.order == orders[k]
    modifies builder
    ensures builder.Valid()
    ensures builder.subMeshes == Overlay(table, ms.prefix, decls[..k + 1])
    ensures builder.order == orders[k + 1]
    ensures builder.isDirty == old(builder.isDirty) && builder.castShadows == old(builder.castShadows)
    ensures builder.meshes == old(builder.meshes) && builder.collider == old(builder.collider)
  {
    assert orders[k] == OverlayOrder(table, order, ms.prefix, k);
    assert orders[k + 1] == OverlayOrder(table, order, ms.prefix, k + 1);
    OverlayExtend(table, ms.prefix, decls, k);
    builder.InitSubmesh(MarkingKey(ms, k), count * 4, count * 6, ms.marks[k].material, false);
  }

  /** `orders[j]` is the enumeration order once prefix+0 .. prefix+(j-1) are declared over `table`. */
  ghost predicate Orders(orders: seq<seq<Key>>, table: map<Key, SubMesh>, order: seq<Key>, prefix: string, n: nat) {
    && |orders| == n + 1
    && forall j {:trigger OverlayOrder(table, order, prefix, j)} ::
         0 <= j <= n ==> orders[j] == OverlayOrder(table, order, prefix, j)
  }

  /** The enumeration orders while n names are declared one after another. */
  ghost function OrdersOf(table: map<Key, SubMesh>, order: seq<Key>, prefix: string, n: nat): (r: seq<seq<Key>>)
    ensures Orders(r, table, order, prefix, n)
  {
    seq(n + 1, j requires 0 <= j <= n => OverlayOrder(table, order, prefix, j))
  }

  /** Walking one more kept segment adds that segment's dashes to a marking's quads. */
  lemma SegmentCount(ms: MarkingSet, layout: Layout, m: Maths, k: int, i: int)
    requires ms.Valid() && layout.Valid() && 0 <= i < layout.Count() && 0 <= k < |ms.marks|
    ensures |MarkingFaces(ms, layout, m, k, i + 1)| == |MarkingFaces(ms, layout, m, k, i)| + |SegmentWalk(ms, layout, m, k, i).dashes|
  {
    var groups := SegmentGroups(ms, layout, m, k);
    FlattenNext(groups, i);
    assert |groups[i]| == |SegmentWalk(ms, layout, m, k, i).dashes|;
  }

  /** A marking's dash count is its number of quads. */
  lemma {:induction false} DashCountFaces(ms: MarkingSet, layout: Layout, m: Maths, k: int, i: int)
    requires ms.Valid() && layout.Valid() && 0 <= i <= layout.Count() && 0 <= k < |ms.marks|
    ensures DashCount(ms, layout, m, k, i) == |MarkingFaces(ms, layout, m, k, i)|
  {
    if i > 0 {
      DashCountFaces(ms, layout, m, k, i - 1);
      SegmentCount(ms, layout, m, k, i - 1);
    }
  }

  /**
    The pre-pass's counts declare exactly the entries the final pass starts
    from: every marking's quads, none of them written yet.
  */
  lemma DeclaredExactly(ms: MarkingSet, layout: Layout, m: Maths, counts: seq<int>)
    requires ms.Valid() && layout.Valid() && |counts| == |ms.marks|
    requires forall k :: 0 <= k < |counts| ==> 0 <= counts[k] && counts[k] == DashCount(ms, layout, m, k, layout.Count())
    ensures Declarations(ms, counts) == Progressed(ms, layout, m, 0, 0)
  {
    forall k | 0 <= k < |counts|
      ensures Declarations(ms, counts)[k] == Progressed(ms, layout, m, 0, 0)[k]
    {
      DeclaredEntry(ms, layout, m, k);
    }
  }

  /** Marking k's declared entry is its entry with none of its quads written. */
  lemma DeclaredEntry(ms: MarkingSet, layout: Layout, m: Maths, k: int)
    requires ms.Valid() && layout.Valid() && 0 <= k < |ms.marks|
    ensures var c := DashCount(ms, layout, m, k, layout.Count());
            NewSubMesh(c * 4, c * 6, ms.marks[k].material, false)
            == Partial(AllFaces(ms, layout, m, k), FacesBefore(ms, layout, m, k, 0), ms.marks[k].material, false)
  {
    var faces := AllFaces(ms, layout, m, k);
    DashCountFaces(ms, layout, m, k, layout.Count());
    MarkingQuads(ms, layout, m, k);
    QuadCounts(faces);
    assert FacesBefore(ms, layout, m, k, 0) == 0;
  }

  /** Once segment i has been walked for every marking, the entries are those before segment i + 1. */
  lemma ProgressedWraps(ms: MarkingSet, layout: Layout, m: Maths, i: int)
    requires ms.Valid() && layout.Valid() && 0 <= i < layout.Count()
    ensures Progressed(ms, layout, m, i, |ms.marks|) == Progressed(ms, layout, m, i + 1, 0)
  {
  }

  /** Once every kept segment has been walked, every marking's entry is its finished entry. */
  lemma ProgressedDone(ms: MarkingSet, layout: Layout, m: Maths, i: int)
    requires ms.Valid() && layout.Valid() && i == layout.Count()
    ensures Progressed(ms, layout, m, i, 0) == MarkingEntries(ms, layout, m)
  {
    forall k | 0 <= k < |ms.marks|
      ensures Progressed(ms, layout, m, i, 0)[k] == MarkingEntries(ms, layout, m)[k]
    {
      var faces := AllFaces(ms, layout, m, k);
      assert FacesBefore(ms, layout, m, k, layout.Count()) == |faces|;
      PartialComplete(faces, ms.marks[k].material, false);
    }
  }

  /**
    The final pass: walks every marking over every kept segment again from
    fresh accumulators and writes one quad per dash into its entry, leaving
    every entry exactly filled.
  */
  method EmitPass(builder: MeshBuilder, ms: MarkingSet, layout: Layout, m: Maths, dists: array<real>, ghost table: map<Key, SubMesh>)
    requires ms.Valid() && layout.Valid()
    requires dists.Length == |ms.marks| && forall j :: 0 <= j < dists.Length ==> dists[j] == 0.0
    requires builder.subMeshes == Overlay(table, ms.prefix, Progressed(ms, layout, m, 0, 0))
    modifies builder, dists
    ensures builder.subMeshes == Overlay(table, ms.prefix, MarkingEntries(ms, layout, m))
    ensures builder.order == old(builder.order) && builder.isDirty == old(builder.isDirty)
    ensures builder.castShadows == old(builder.castShadows)
    ensures builder.meshes == old(builder.meshes) && builder.collider == old(builder.collider)
  {
    var i := 0;
    while i < |layout.keep| - 1
      invariant 0 <= i <= layout.Count()
      invariant forall j :: 0 <= j < dists.Length ==> dists[j] == Accumulated(ms, layout, m, j, i)
      invariant builder.subMeshes == Overlay(table, ms.prefix, Progressed(ms, layout, m, i, 0))
      invariant builder.order == old(builder.order) && builder.isDirty == old(builder.isDirty)
      invariant builder.castShadows == old(builder.castShadows)
      invariant builder.meshes == old(builder.meshes) && builder.collider == old(builder.collider)
    {
      EmitSegment(builder, ms, layout, m, i, dists, table);
      ProgressedWraps(ms, layout, m, i);
      i := i + 1;
    }
    ProgressedDone(ms, layout, m, i);
  }

  /** One kept segment of the final pass: every marking in turn. */
  method EmitSegment(builder: MeshBuilder, ms: MarkingSet, layout: Layout, m: Maths, i: int, dists: array<real>,
                     ghost table: map<Key, SubMesh>)
    requires ms.Valid() && layout.Valid() && 0 <= i < layout.Count()
    requires dists.Length == |ms.marks| && forall j :: 0 <= j < dists.Length ==> dists[j] == Accumulated(ms, layout, m, j, i)
    requires builder.subMeshes == Overlay(table, ms.prefix, Progressed(ms, layout, m, i, 0))
    modifies builder, dists
    ensures forall j :: 0 <= j < dists.Length ==> dists[j] == Accumulated(ms, layout, m, j, i + 1)
    ensures builder.subMeshes == Overlay(table, ms.prefix, Progressed(ms, layout, m, i, |ms.marks|))
    ensures builder.order == old(builder.order) && builder.isDirty == old(builder.isDirty)
    ensures builder.castShadows == old(builder.castShadows)
    ensures builder.meshes == old(builder.meshes) && builder.collider == old(builder.collider)
  {
    var k := 0;
    while k < |ms.marks|
      invariant 0 <= k <= |ms.marks|
      invariant forall j :: 0 <= j < k ==> dists[j] == Accumulated(ms, layout, m, j, i + 1)
      invariant forall j :: k <= j < dists.Length ==> dists[j] == Accumulated(ms, layout, m, j, i)
      invariant builder.subMeshes == Overlay(table, ms.prefix, Progressed(ms, layout, m, i, k))
      invariant builder.order == old(builder.order) && builder.isDirty == old(builder.isDirty)
      invariant builder.castShadows == old(builder.castShadows)
      invariant builder.meshes == old(builder.meshes) && builder.collider == old(builder.collider)
    {
      EmitMarking(builder, ms, layout, m, i, k, dists, table);
      k := k + 1;
    }
  }

  /** Marking k's dash loop over kept segment i: its accumulator and entry advance past the segment. */
  method EmitMarking(builder: MeshBuilder, ms: MarkingSet, layout: Layout, m: Maths, i: int, k: int, dists: array<real>,
                     ghost table: map<Key, SubMesh>)
    requires ms.Valid() && layout.Valid() && 0 <= i < layout.Count() && 0 <= k < |ms.marks|
    requires dists.Length == |ms.marks| && dists[k] == Accumulated(ms, layout, m, k, i)
    requires builder.subMeshes == Overlay(table, ms.prefix, Progressed(ms, layout, m, i, k))
    modifies builder, dists
    ensures dists[k] == Accumulated(ms, layout, m, k, i + 1)
    ensures forall j :: 0 <= j < dists.Length && j != k ==> dists[j] == old(dists[j])
    ensures builder.subMeshes == Overlay(table, ms.prefix, Progressed(ms, layout, m, i, k + 1))
    ensures builder.order == old(builder.order) && builder.isDirty == old(builder.isDirty)
    ensures builder.castShadows == old(builder.castShadows)
    ensures builder.meshes == old(builder.meshes) && builder.collider == old(builder.collider)
  {
    var sp := SpanOf(ms, layout, m, k, i);
    ghost var stages := StagesOf(AllFaces(ms, layout, m, k), ms.marks[k].material, false);
    MarkingReady(ms, layout, m, k, i);
    FacesAdvance(ms, layout, m, k, i);
    SegmentCounted(ms, layout, m, k, i);
    OverlayStep(table, ms, layout, m, i, k, stages);
    ghost var current := builder.subMeshes;
    ghost var from := dists[k];
    assert from == Accumulated(ms, layout, m, k, i);
    ghost var after := FacesBefore(ms, layout, m, k, i + 1);
    EmitDashes(builder, ms, ms.rule, sp, MarkingKey(ms, k), ms.marks[k].pattern, k, dists,
               current, builder.order, AllFaces(ms, layout, m, k), stages, FacesBefore(ms, layout, m, k, i), after, ms.marks[k].material);
  }

  /**
    Before marking k walks segment i, its quads for that segment lie in its
    final face list from the slot its earlier segments fill up to, and they
    end where its later segments start.
  */
  lemma MarkingReady(ms: MarkingSet, layout: Layout, m: Maths, k: int, i: int)
    requires ms.Valid() && layout.Valid() && 0 <= k < |ms.marks| && 0 <= i < layout.Count()
    ensures var from := Accumulated(ms, layout, m, k, i);
            var sp := SpanOf(ms, layout, m, k, i);
            Lays(ms, ms.rule, sp, ms.marks[k].pattern, from, AllFaces(ms, layout, m, k), FacesBefore(ms, layout, m, k, i), from, sp.length)
  {
    var from := Accumulated(ms, layout, m, k, i);
    var sp := SpanOf(ms, layout, m, k, i);
    var ds := SegmentWalk(ms, layout, m, k, i).dashes;
    var w0 := FacesBefore(ms, layout, m, k, i);
    SegmentSlice(ms, layout, m, k, i);
    assert AllFaces(ms, layout, m, k)[w0..w0 + |ds|] == WalkFaces(ms, sp, from, ds);
    LaysWalk(ms, ms.rule, sp, ms.marks[k].pattern, from, ds, AllFaces(ms, layout, m, k), w0, from, sp.length);
  }

  /** A slice of `faces` holding all of a walk's quads lays out that walk. */
  lemma LaysWalk(ms: MarkingSet, rule: Rule, sp: Span, p: Pattern, from: real, ds: seq<Dash>, faces: seq<Face>, w0: nat,
                 pos: real, remaining: real)
    requires ms.Valid() && pos >= 0.0
    requires ds == WalkSegment(rule, p, pos, remaining).dashes
    requires w0 + |ds| <= |faces| && faces[w0..w0 + |ds|] == WalkFaces(ms, sp, from, ds)
    ensures Lays(ms, rule, sp, p, from, faces, w0, pos, remaining)
  {
    assert ds[0..] == ds;
    LaysSlice(ms, rule, sp, p, from, ds, faces, w0, 0, pos, remaining);
  }

  /** Marking k's quads over the first i + 1 kept segments are those over the first i and one per dash of segment i. */
  lemma FacesAdvance(ms: MarkingSet, layout: Layout, m: Maths, k: int, i: int)
    requires ms.Valid() && layout.Valid() && 0 <= k < |ms.marks| && 0 <= i < layout.Count()
    ensures var walk := WalkSegment(ms.rule, ms.marks[k].pattern, Accumulated(ms, layout, m, k, i), SpanOf(ms, layout, m, k, i).length);
            FacesBefore(ms, layout, m, k, i + 1) == FacesBefore(ms, layout, m, k, i) + |walk.dashes|
  {
    SegmentSlice(ms, layout, m, k, i);
  }

  /** Walking marking k over segment i moves its entry in the progress state from the first to the second partial entry. */
  lemma ProgressedNext(ms: MarkingSet, layout: Layout, m: Maths, i: int, k: int)
    requires ms.Valid() && layout.Valid() && 0 <= i < layout.Count() && 0 <= k < |ms.marks|
    ensures var faces := AllFaces(ms, layout, m, k);
            && Progressed(ms, layout, m, i, k)[k] == Partial(faces, FacesBefore(ms, layout, m, k, i), ms.marks[k].material, false)
            && Progressed(ms, layout, m, i, k)[k := Partial(faces, FacesBefore(ms, layout, m, k, i + 1), ms.marks[k].material, false)]
               == Progressed(ms, layout, m, i, k + 1)
  {
  }

  /**
    Marking k's step over segment i on the overlaid table: its entry is the
    partial entry its earlier segments left, and replacing it with the entry
    after this segment gives the overlay of the next progress state.
  */
  lemma OverlayStep(table: map<Key, SubMesh>, ms: MarkingSet, layout: Layout, m: Maths, i: int, k: int, stages: seq<SubMesh>)
    requires ms.Valid() && layout.Valid() && 0 <= i < layout.Count() && 0 <= k < |ms.marks|
    requires Stages(stages, AllFaces(ms, layout, m, k), ms.marks[k].material, false)
    ensures var over := Overlay(table, ms.prefix, Progressed(ms, layout, m, i, k));
            && MarkingKey(ms, k) in over
            && over == over[MarkingKey(ms, k) := stages[FacesBefore(ms, layout, m, k, i)]]
            && over[MarkingKey(ms, k) := stages[FacesBefore(ms, layout, m, k, i + 1)]]
               == Overlay(table, ms.prefix, Progressed(ms, layout, m, i, k + 1))
  {
    var entries := Progressed(ms, layout, m, i, k);
    var faces := AllFaces(ms, layout, m, k);
    var before := Partial(faces, FacesBefore(ms, layout, m, k, i), ms.marks[k].material, false);
    var after := Partial(faces, FacesBefore(ms, layout, m, k, i + 1), ms.marks[k].material, false);
    ProgressedNext(ms, layout, m, i, k);
    OverlayLookup(table, ms.prefix, entries, MarkingKey(ms, k));
    OverlayUpdate(table, ms.prefix, entries, k, after);
    SameUpdate(Overlay(table, ms.prefix, entries), MarkingKey(ms, k));
  }

  /** Storing an entry's own value leaves a table as it is. */
  lemma SameUpdate(table: map<Key, SubMesh>, key: Key)
    requires key in table
    ensures table == table[key := table[key]]
  {
  }

  /**
    One turn of the final pass's dash loop: the step is positive and moves
    the centre point along the span; a step in a dash is the next dash of the
    walk and its quad is the walk's next quad; the walk from after the step
    holds the remaining dashes, ends where the whole walk ends, and has fewer
    steps left.
  */
  lemma EmitStepFacts(ms: MarkingSet, rule: Rule, sp: Span, p: Pattern, from: real, ds: seq<Dash>, j: int, pos: real, remaining: real)
    requires ms.Valid() && pos >= 0.0 && remaining > MinRemaining && 0 <= j <= |ds|
    requires ds[j..] == WalkSegment(rule, p, pos, remaining).dashes
    ensures var s := StepOf(rule, p, pos, remaining);
            var w := WalkSegment(rule, p, pos, remaining);
            var after := WalkSegment(rule, p, pos + s.length, remaining - s.length);
            && 0.0 < s.length
            && Add(Along(sp, from, pos), Scale(sp.dir, s.length)) == Along(sp, from, pos + s.length)
            && after.end == w.end
            && StepsLeft(rule, p, pos + s.length, remaining - s.length) < StepsLeft(rule, p, pos, remaining)
            && (s.inDash ==> (j < |ds| && ds[j + 1..] == after.dashes
                  && WalkFaces(ms, sp, from, ds)[j]
                     == DashFace(ms, sp, Along(sp, from, pos), Along(sp, from, pos + s.length), pos, s.length)))
            && (!s.inDash ==> ds[j..] == after.dashes)
  {
    var s := StepOf(rule, p, pos, remaining);
    WalkStep(rule, p, pos, remaining);
    AlongStep(sp, from, pos, s.length);
    if s.inDash {
      NextDash(ds, j, Dash(pos, s.length));
      DashFaceAt(ms, sp, from, ds, j);
    }
  }

  /** When the dashes from slot j on start with d, slot j holds d and the rest follow it. */
  lemma NextDash(ds: seq<Dash>, j: int, d: Dash)
    requires 0 <= j <= |ds| && |ds[j..]| > 0 && ds[j..][0] == d
    ensures j < |ds| && ds[j] == d && ds[j + 1..] == ds[j..][1..]
  {
  }

  /** Quad j of a walk is the quad between the centre points at its dash's two ends. */
  lemma DashFaceAt(ms: MarkingSet, sp: Span, from: real, ds: seq<Dash>, j: int)
    requires ms.Valid() && 0 <= j < |ds|
    ensures WalkFaces(ms, sp, from, ds)[j]
            == DashFace(ms, sp, Along(sp, from, ds[j].start), Along(sp, from, ds[j].start + ds[j].length), ds[j].start, ds[j].length)
  {
  }

  /** Slot w0 + j of a list holds element j of the slice starting at w0. */
  lemma SliceAt(faces: seq<Face>, w0: int, part: seq<Face>, j: int)
    requires 0 <= w0 && w0 + |part| <= |faces| && faces[w0..w0 + |part|] == part && 0 <= j < |part|
    ensures faces[w0 + j] == part[j]
  {
  }

  /**
    The quads of a walk are laid out from slot w of `faces` on: walking the
    span from accumulator `pos` with `remaining` left, each step in a dash
    fills the next slot with the quad between the centre points at its ends.
  */
  ghost predicate Lays(ms: MarkingSet, rule: Rule, sp: Span, p: Pattern, from: real, faces: seq<Face>, w: int, pos: real, remaining: real)
    requires ms.Valid() && pos >= 0.0
    decreases StepsLeft(rule, p, pos, remaining)
  {
    remaining > MinRemaining ==>
      var s := StepOf(rule, p, pos, remaining);
      && (s.inDash ==> (0 <= w < |faces|
            && faces[w] == DashFace(ms, sp, Along(sp, from, pos), Along(sp, from, pos + s.length), pos, s.length)))
      && Lays(ms, rule, sp, p, from, faces, if s.inDash then w + 1 else w, pos + s.length, remaining - s.length)
  }

  /** A slice of `faces` holding a walk's quads from slot j on lays out the rest of that walk. */
  lemma {:induction false} LaysSlice(ms: MarkingSet, rule: Rule, sp: Span, p: Pattern, from: real, ds: seq<Dash>, faces: seq<Face>, w0: nat, j: int,
                                     pos: real, remaining: real)
    requires ms.Valid() && pos >= 0.0 && 0 <= j <= |ds|
    requires ds[j..] == WalkSegment(rule, p, pos, remaining).dashes
    requires w0 + |ds| <= |faces| && faces[w0..w0 + |ds|] == WalkFaces(ms, sp, from, ds)
    ensures Lays(ms, rule, sp, p, from, faces, w0 + j, pos, remaining)
    decreases StepsLeft(rule, p, pos, remaining)
  {
    if remaining > MinRemaining {
      var s := StepOf(rule, p, pos, remaining);
      EmitStepFacts(ms, rule, sp, p, from, ds, j, pos, remaining);
      if s.inDash {
        SliceAt(faces, w0, WalkFaces(ms, sp, from, ds), j);
        LaysSlice(ms, rule, sp, p, from, ds, faces, w0, j + 1, pos + s.length, remaining - s.length);
      } else {
        LaysSlice(ms, rule, sp, p, from, ds, faces, w0, j, pos + s.length, remaining - s.length);
      }
    }
  }

  lemma LaysNext(ms: MarkingSet, rule: Rule, sp: Span, p: Pattern, from: real, faces: seq<Face>, w: int, pos: real, remaining: real)
    requires ms.Valid() && pos >= 0.0 && remaining > MinRemaining
    requires Lays(ms, rule, sp, p, from, faces, w, pos, remaining)
    ensures var s := StepOf(rule, p, pos, remaining);
            && (s.inDash ==> (0 <= w < |faces|
                  && faces[w] == DashFace(ms, sp, Along(sp, from, pos), Add(Along(sp, from, pos), Scale(sp.dir, s.length)), pos, s.length)))
            && Lays(ms, rule, sp, p, from, faces, if s.inDash then w + 1 else w, pos + s.length, remaining - s.length)
  {
    AlongStep(sp, from, pos, StepOf(rule, p, pos, remaining).length);
  }

  method EmitStep(builder: MeshBuilder, ms: MarkingSet, rule: Rule, sp: Span, key: Key, pattern: Pattern, k: int, dists: array<real>,
                  cur: Vec3, remaining: real, ghost table: map<Key, SubMesh>, ghost order: seq<Key>,
                  ghost faces: seq<Face>, ghost stages: seq<SubMesh>, ghost w: nat, ghost material: Material)
    returns (next: Vec3, left: real, ghost w': nat)
    requires ms.Valid() && 0 <= k < dists.Length && w <= |faces| && Stages(stages, faces, material, false)
    requires key in table && builder.order == order
    requires builder.subMeshes == table[key := stages[w]]
    requires var s := StepOf(rule, pattern, dists[k], remaining);
             s.inDash ==> (w < |faces| && faces[w] == DashFace(ms, sp, cur, Add(cur, Scale(sp.dir, s.length)), dists[k], s.length))
    modifies builder, dists
    ensures var s := StepOf(rule, pattern, old(dists[k]), remaining);
            && dists[k] == old(dists[k]) + s.length && next == Add(cur, Scale(sp.dir, s.length))
            && left == remaining - s.length && w' == (if s.inDash then w + 1 else w)
    ensures builder.subMeshes == table[key := stages[w']]
    ensures forall j :: 0 <= j < dists.Length && j != k ==> dists[j] == old(dists[j])
    ensures builder.order == order && builder.isDirty == old(builder.isDirty)
    ensures builder.castShadows == old(builder.castShadows)
    ensures builder.meshes == old(builder.meshes) && builder.collider == old(builder.collider)
  {
    var linePos := dists[k];
    var step := StepOf(rule, pattern, linePos, remaining);
    next := Add(cur, Scale(sp.dir, step.length));
    w' := w;
    if step.inDash {
      EmitNext(builder, key, table, order, faces, w, DashFace(ms, sp, cur, next, linePos, step.length), material, false);
      w' := w + 1;
    }
    dists[k] := linePos + step.length;
    left := remaining - step.length;
  }

  /**
    One turn of the dash loop, stated in the terms of the loop's invariant:
    the walk still to come accounts for the same dashes and ends at the same
    accumulator, the remaining slots are still laid, and fewer steps are left.
  */
  method EmitTurn(builder: MeshBuilder, ms: MarkingSet, rule: Rule, sp: Span, key: Key, pattern: Pattern, k: int, dists: array<real>,
                  ghost from: real, cur: Vec3, remaining: real, ghost table: map<Key, SubMesh>, ghost order: seq<Key>,
                  ghost faces: seq<Face>, ghost stages: seq<SubMesh>, ghost w: nat, ghost material: Material)
    returns (next: Vec3, left: real, ghost w': nat)
    requires ms.Valid() && 0 <= k < dists.Length && dists[k] >= 0.0 && remaining > MinRemaining
    requires cur == Along(sp, from, dists[k]) && w <= |faces| && Stages(stages, faces, material, false)
    requires Lays(ms, rule, sp, pattern, from, faces, w, dists[k], remaining)
    requires key in table && builder.order == order
    requires builder.subMeshes == table[key := stages[w]]
    modifies builder, dists
    ensures dists[k] >= 0.0 && next == Along(sp, from, dists[k]) && w' <= |faces|
    ensures var before := WalkSegment(rule, pattern, old(dists[k]), remaining);
            var after := WalkSegment(rule, pattern, dists[k], left);
            && w' + |after.dashes| == w + |before.dashes| && after.end == before.end
    ensures StepsLeft(rule, pattern, dists[k], left) < StepsLeft(rule, pattern, old(dists[k]), remaining)
    ensures Lays(ms, rule, sp, pattern, from, faces, w', dists[k], left)
    ensures builder.subMeshes == table[key := stages[w']]
    ensures forall j :: 0 <= j < dists.Length && j != k ==> dists[j] == old(dists[j])
    ensures builder.order == order && builder.isDirty == old(builder.isDirty)
    ensures builder.castShadows == old(builder.castShadows)
    ensures builder.meshes == old(builder.meshes) && builder.collider == old(builder.collider)
  {
    WalkStep(rule, pattern, dists[k], remaining);
    LaysNext(ms, rule, sp, pattern, from, faces, w, dists[k], remaining);
    AlongStep(sp, from, dists[k], StepOf(rule, pattern, dists[k], remaining).length);
    next, left, w' := EmitStep(builder, ms, rule, sp, key, pattern, k, dists, cur, remaining, table, order, faces, stages, w, material);
  }

  /**
    The final pass's dash loop for one marking over one segment: steps along
    the span from its near centre exactly as the pre-pass did, and writes the
    quad of every step that lies in a dash into the marking's entry.
  */
  method EmitDashes(builder: MeshBuilder, ms: MarkingSet, rule: Rule, sp: Span, key: Key, pattern: Pattern, k: int, dists: array<real>,
                    ghost table: map<Key, SubMesh>, ghost order: seq<Key>, ghost faces: seq<Face>, ghost stages: seq<SubMesh>, ghost w0: nat, ghost w1: nat,
                    ghost material: Material)
    requires ms.Valid() && 0 <= k < dists.Length && dists[k] >= 0.0
    requires key in table && builder.order == order && Stages(stages, faces, material, false)
    requires w0 + |WalkSegment(rule, pattern, dists[k], sp.length).dashes| == w1 <= |faces|
    requires Lays(ms, rule, sp, pattern, dists[k], faces, w0, dists[k], sp.length)
    requires builder.subMeshes == table[key := stages[w0]]
    modifies builder, dists
    ensures builder.subMeshes == table[key := stages[w1]]
    ensures dists[k] == WalkSegment(rule, pattern, old(dists[k]), sp.length).end
    ensures forall j :: 0 <= j < dists.Length && j != k ==> dists[j] == old(dists[j])
    ensures builder.order == order && builder.isDirty == old(builder.isDirty)
    ensures builder.castShadows == old(builder.castShadows)
    ensures builder.meshes == old(builder.meshes) && builder.collider == old(builder.collider)
  {
    ghost var from := dists[k];
    ghost var whole := WalkSegment(rule, pattern, from, sp.length);
    ghost var w: nat := w0;
    var remaining := sp.length;
    var cur := sp.center0;
    AlongStep(sp, from, from, 0.0);
    while remaining > MinRemaining
      invariant dists[k] >= 0.0 && cur == Along(sp, from, dists[k])
      invariant var ws := WalkSegment(rule, pattern, dists[k], remaining);
                w + |ws.dashes| == w0 + |whole.dashes| && ws.end == whole.end
      invariant w0 + |whole.dashes| <= |faces|
      invariant Lays(ms, rule, sp, pattern, from, faces, w, dists[k], remaining)
      invariant builder.subMeshes == table[key := stages[w]]
      invariant forall j :: 0 <= j < dists.Length && j != k ==> dists[j] == old(dists[j])
      invariant builder.order == order && builder.isDirty == old(builder.isDirty)
      invariant builder.castShadows == old(builder.castShadows)
      invariant builder.meshes == old(builder.meshes) && builder.collider == old(builder.collider)
      decreases StepsLeft(rule, pattern, dists[k], remaining)
    {
      cur, remaining, w := EmitTurn(builder, ms, rule, sp, key, pattern, k, dists, from, cur, remaining, table, order, faces, stages, w, material);
    }
    WalkDone(rule, pattern, dists[k], remaining);
  }
  // ------------------------------------------------------------ the whole generator

  /**
    The body of the marking generators after sampling: the pre-pass counts
    every marking's dashes, every entry is declared with exactly that room,
    and the final pass, from fresh accumulators, fills every entry exactly.
  */
  method WriteMarkings(builder: MeshBuilder, ms: MarkingSet, layout: Layout, m: Maths)
    requires builder.Valid() && ms.Valid() && layout.Valid()
    modifies builder
    ensures builder.Valid()
    ensures builder.subMeshes == Overlay(old(builder.subMeshes), ms.prefix, MarkingEntries(ms, layout, m))
    ensures builder.order == OverlayOrder(old(builder.subMeshes), old(builder.order), ms.prefix, |ms.marks|)
    ensures builder.isDirty == old(builder.isDirty) && builder.castShadows == old(builder.castShadows)
    ensures builder.meshes == old(builder.meshes) && builder.collider == old(builder.collider)
  {
    var quadCounts := new int[|ms.marks|](_ => 0);
    var distancesCount := new real[|ms.marks|](_ => 0.0);
    CountPass(ms, layout, m, quadCounts, distancesCount);
    DeclaredExactly(ms, layout, m, quadCounts[..]);
    DeclareMarkings(builder, ms, quadCounts);
    var distances := new real[|ms.marks|](_ => 0.0);
    EmitPass(builder, ms, layout, m, distances, old(builder.subMeshes));
    EntriesValid(ms, layout, m);
    OverlayValid(old(builder.subMeshes), ms.prefix, Progressed(ms, layout, m, 0, 0), MarkingEntries(ms, layout, m), builder.order);
  }

  /** Every finished marking entry is well formed. */
  lemma EntriesValid(ms: MarkingSet, layout: Layout, m: Maths)
    requires ms.Valid() && layout.Valid()
    ensures forall k :: 0 <= k < |ms.marks| ==> MarkingEntries(ms, layout, m)[k].Valid()
  {
    forall k | 0 <= k < |ms.marks|
      ensures MarkingEntries(ms, layout, m)[k].Valid()
    {
      var faces := AllFaces(ms, layout, m, k);
      PartialComplete(faces, ms.marks[k].material, false);
      PartialValid(faces, |faces|, ms.marks[k].material, false);
    }
  }
  /**
    Marking k's finished entry is exact: four vertices and six indices per
    dash the pre-pass counted, every one of them written, in the marking's
    material and without collision.
  */
  lemma EntryExact(ms: MarkingSet, layout: Layout, m: Maths, k: int)
    requires ms.Valid() && layout.Valid() && 0 <= k < |ms.marks|
    ensures var e := MarkingEntries(ms, layout, m)[k];
            var c := DashCount(ms, layout, m, k, layout.Count());
            && e.Full() && !e.hasCollision && e.material == ms.marks[k].material
            && |e.vertices| == 4 * c && |e.indices| == 6 * c
  {
    DashCountFaces(ms, layout, m, k, layout.Count());
    MarkingQuads(ms, layout, m, k);
    QuadCounts(AllFaces(ms, layout, m, k));
  }

  // ------------------------------------------------------------ texture V along a marking

  /** Quads textured along two runs of dashes, one after the other, are textured along both runs. */
  lemma TexturedAppend(a: seq<Face>, da: seq<Dash>, b: seq<Face>, db: seq<Dash>, repeat: real)
    requires Textured(a, da, repeat) && Textured(b, db, repeat)
    ensures Textured(a + b, da + db, repeat)
  {
    var fs, ds := a + b, da + db;
    forall j | 0 <= j < |fs|
      ensures fs[j].Quad? && fs[j].uvA.y == ds[j].start / repeat && fs[j].uvB.y == ds[j].start / repeat
      ensures fs[j].uvC.y == (ds[j].start + ds[j].length) / repeat && fs[j].uvD.y == (ds[j].start + ds[j].length) / repeat
    {
      if j < |a| {
        assert fs[j] == a[j] && ds[j] == da[j];
      } else {
        assert fs[j] == b[j - |a|] && ds[j] == db[j - |a|];
      }
    }
  }

  /**
    Over the first i kept segments, marking k's quads are textured along its
    dashes, and those dashes are laid in order from accumulator 0 to the
    accumulator the walk has reached.
  */
  lemma {:induction false} MarkingTextured(ms: MarkingSet, layout: Layout, m: Maths, k: int, i: int)
    requires ms.Valid() && layout.Valid() && 0 <= i <= layout.Count() && 0 <= k < |ms.marks|
    ensures Textured(MarkingFaces(ms, layout, m, k, i), MarkingDashes(ms, layout, m, k, i), ms.repeat)
    ensures Laid(MarkingDashes(ms, layout, m, k, i), 0.0, Accumulated(ms, layout, m, k, i))
  {
    var groups := SegmentGroups(ms, layout, m, k);
    if i == 0 {
      assert groups[..0] == [];
    } else {
      MarkingTextured(ms, layout, m, k, i - 1);
      FlattenNext(groups, i - 1);
      var from := Accumulated(ms, layout, m, k, i - 1);
      var walk := SegmentWalk(ms, layout, m, k, i - 1);
      WalkLaid(ms.rule, ms.marks[k].pattern, from, SpanOf(ms, layout, m, k, i - 1).length);
      LaidAppend(MarkingDashes(ms, layout, m, k, i - 1), walk.dashes, 0.0, from, Accumulated(ms, layout, m, k, i));
      TexturedAppend(MarkingFaces(ms, layout, m, k, i - 1), MarkingDashes(ms, layout, m, k, i - 1),
                     groups[i - 1], walk.dashes, ms.repeat);
    }
  }

  /**
    Quads textured along dashes laid from `from` >= 0 to `to` have their V
    in [from, to] in repeats, growing strictly across each quad and never
    stepping back from one quad to the next.
  */
  lemma TexturedForward(fs: seq<Face>, ds: seq<Dash>, repeat: real, from: real, to: real)
    requires Textured(fs, ds, repeat) && Laid(ds, from, to) && from >= 0.0
    ensures forall j :: 0 <= j < |fs| ==> 0.0 <= fs[j].uvA.y < fs[j].uvD.y <= to / repeat
    ensures forall j :: 0 <= j < |fs| - 1 ==> fs[j].uvD.y <= fs[j + 1].uvA.y
  {
    forall j | 0 <= j < |fs|
      ensures 0.0 <= fs[j].uvA.y < fs[j].uvD.y <= to / repeat
    {
      QuotientOrder(0.0, ds[j].start, repeat);
      QuotientOrder(ds[j].start, ds[j].start + ds[j].length, repeat);
      QuotientOrder(ds[j].start + ds[j].length, to, repeat);
    }
    forall j | 0 <= j < |fs| - 1
      ensures fs[j].uvD.y <= fs[j + 1].uvA.y
    {
      QuotientOrder(ds[j].start + ds[j].length, ds[j + 1].start, repeat);
    }
  }

  /**
    Along a marking the texture runs forward: quad j's V runs from its
    dash's accumulator start to its end in texture repeats, is never below
    0, grows strictly across the quad, starts no earlier than the previous
    quad's V ends, and never passes the marking's final accumulator.
  */
  lemma MarkingVForward(ms: MarkingSet, layout: Layout, m: Maths, k: int)
    requires ms.Valid() && layout.Valid() && 0 <= k < |ms.marks|
    ensures var fs, ds := AllFaces(ms, layout, m, k), MarkingDashes(ms, layout, m, k, layout.Count());
            var last := Accumulated(ms, layout, m, k, layout.Count()) / ms.repeat;
            && Textured(fs, ds, ms.repeat)
            && (forall j :: 0 <= j < |fs| ==> 0.0 <= fs[j].uvA.y < fs[j].uvD.y <= last)
            && (forall j :: 0 <= j < |fs| - 1 ==> fs[j].uvD.y <= fs[j + 1].uvA.y)
  {
    var n := layout.Count();
    MarkingTextured(ms, layout, m, k, n);
    TexturedForward(AllFaces(ms, layout, m, k), MarkingDashes(ms, layout, m, k, n), ms.repeat,
                    0.0, Accumulated(ms, layout, m, k, n));
  }
}
