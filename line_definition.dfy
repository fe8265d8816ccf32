/**
  The road line definition asset: a material and a dash pattern whose two
  numbers are clamped by their property setters.
*/
module LineDefinitions {
  import opened Wrappers
  import opened Geometry
  import opened Meshes

  const MaxDashSpacing: real := 10000.0

  datatype RoadLineDefinition = RoadLineDefinition(material: Option<Material>, dashSpacing: real, dashFillRatio: real)
  {
    /** The ranges the setters keep: spacing in [0, 10000], fill ratio in [0, 1]. */
    ghost predicate Valid() {
      0.0 <= dashSpacing <= MaxDashSpacing && 0.0 <= dashFillRatio <= 1.0
    }

    /** The `DashSpacing` setter: clamps to [0, 10000] and changes nothing else. */
    function SetDashSpacing(v: real): (r: RoadLineDefinition)
      ensures 0.0 <= r.dashSpacing <= MaxDashSpacing
      ensures 0.0 <= v <= MaxDashSpacing ==> r.dashSpacing == v
      ensures v < 0.0 ==> r.dashSpacing == 0.0
      ensures v > MaxDashSpacing ==> r.dashSpacing == MaxDashSpacing
      ensures r.(dashSpacing := dashSpacing) == this
      ensures Valid() ==> r.Valid()
    {
      this.(dashSpacing := Clamp(v, 0.0, MaxDashSpacing))
    }

    /** The `DashFillRatio` setter: clamps to [0, 1] and changes nothing else. */
    function SetDashFillRatio(v: real): (r: RoadLineDefinition)
      ensures 0.0 <= r.dashFillRatio <= 1.0
      ensures 0.0 <= v <= 1.0 ==> r.dashFillRatio == v
      ensures v < 0.0 ==> r.dashFillRatio == 0.0
      ensures v > 1.0 ==> r.dashFillRatio == 1.0
      ensures r.(dashFillRatio := dashFillRatio) == this
      ensures Valid() ==> r.Valid()
    {
      this.(dashFillRatio := Clamp(v, 0.0, 1.0))
    }

    /** The "on" part of each dash cycle. */
    function DashLength(): real {
      dashSpacing * dashFillRatio
    }
  }

  /** A new asset: no material, spacing 0 and fill ratio 1, which draws a solid line. */
  const DefaultLineDefinition := RoadLineDefinition(None, 0.0, 1.0)

  lemma DefaultIsSolid()
    ensures DefaultLineDefinition.Valid()
    ensures DefaultLineDefinition.dashSpacing == 0.0 && DefaultLineDefinition.dashFillRatio == 1.0
  {
  }

  /**
    The setters are idempotent: setting a value twice is setting it once, and
    setting a definition's own value leaves a valid definition as it is.
  */
  lemma SettersIdempotent(d: RoadLineDefinition, v: real)
    ensures d.SetDashSpacing(v).SetDashSpacing(v) == d.SetDashSpacing(v)
    ensures d.SetDashFillRatio(v).SetDashFillRatio(v) == d.SetDashFillRatio(v)
    ensures d.Valid() ==> d.SetDashSpacing(d.dashSpacing) == d && d.SetDashFillRatio(d.dashFillRatio) == d
  {
  }

  /** On a valid definition the dash length lies between zero and the spacing. */
  lemma DashLengthBounds(d: RoadLineDefinition)
    requires d.Valid()
    ensures 0.0 <= d.DashLength() <= d.dashSpacing
  {
    NonNegativeProduct(d.dashSpacing, d.dashFillRatio);
    NonNegativeProduct(d.dashSpacing, 1.0 - d.dashFillRatio);
  }
}
