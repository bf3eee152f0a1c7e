/** Concrete cylinders, spheres and trees, each checked against the behaviour
    it is expected to show. */
module Scenarios {
  import opened Strings
  import opened Spatial
  import opened Outcomes
  import opened DataBinding
  import opened Scripting
  import opened Cylinders
  import opened Spheres
  import opened Nodes

  /** A cylinder of diameter 5.5 and height 12.1, centred, shows both radii as
      2.75, then the height, after `center = true`. */
  lemma ConstructorArguments()
    ensures CylinderEntries(DiameterCylinder(5.5, 12.1, true))
         == [Entry(Center, FlagArg(true)), Entry(Radius1, NumberArg(2.75)),
             Entry(Radius2, NumberArg(2.75)), Entry(Height, NumberArg(12.1))]
  {
    DiameterCylinderEntries(5.5, 12.1, true);
  }

  /** The cylinder of diameter 5.5 and height 12.1, centred, shows
      `r1 = 2.75`, `r2 = 2.75`, `h = 12.1` and `center = true`, the numbers in
      their script rendering. */
  lemma ConstructorTexts()
    ensures var script := CylinderScript(DiameterCylinder(5.5, 12.1, true));
      && Contains(script, "r1 = " + NumText(2.75))
      && Contains(script, "r2 = " + NumText(2.75))
      && Contains(script, "h = " + NumText(12.1))
      && Contains(script, "center = true")
  {
    DiameterCylinderShows(5.5, 12.1, true);
    assert 5.5 / 2.0 == 2.75;
    CenterTrueText();
  }

  lemma CenterTrueText()
    ensures "center = " + BoolText(true) == "center = true"
  {
  }

  /** Positions and boxes of cylinders of diameter 3 or 5 and height 40 or 20. */
  lemma ConstructorGeometry()
    ensures CylinderPosition(DiameterCylinder(3.0, 40.0, false)) == Ok(Vector3(0.0, 0.0, 20.0))
    ensures CylinderPosition(DiameterCylinder(5.0, 20.0, true)) == Ok(Origin)
    ensures CylinderBounds(DiameterCylinder(5.0, 20.0, false))
         == Ok(Bounds(Vector3(-2.5, -2.5, 0.0), Vector3(2.5, 2.5, 20.0)))
    ensures CylinderBounds(DiameterCylinder(5.0, 20.0, true))
         == Ok(Bounds(Vector3(-2.5, -2.5, -10.0), Vector3(2.5, 2.5, 10.0)))
  {
    DiameterCylinderGeometry(3.0, 40.0, false);
    DiameterCylinderGeometry(5.0, 20.0, true);
    DiameterCylinderGeometry(5.0, 20.0, false);
  }

  /** A cylinder made without arguments shows no `$fn`, `$fa` or `$fs`. */
  lemma DefaultCylinderUnresolved()
    ensures !Contains(CylinderScript(DefaultCylinder), "$fn")
    ensures !Contains(CylinderScript(DefaultCylinder), "$fa")
    ensures !Contains(CylinderScript(DefaultCylinder), "$fs")
  {
    UnsetSettingsAbsent(DefaultCylinder);
  }

  /** Setting resolution 40, minimum angle 5 and minimum circumferential length 2
      on a new cylinder makes its statement show `$fn`, `$fa` and `$fs`. */
  method ResolutionSettings() returns (script: string)
    ensures Contains(script, "$fn") && Contains(script, "$fa") && Contains(script, "$fs")
  {
    var c := new Cylinder();
    c.SetResolution(40.0);
    c.SetMinimumAngle(5.0);
    c.SetMinimumCircumferentialLength(2.0);
    var s := c.State();
    script := CylinderScript(s);
    SetSettingsAppear(s);
  }

  /** Binding `Center` to a boolean variable makes the accessor return its value
      and the statement show `center = isCentered`. */
  method CenterBinding() returns (center: Result<bool>, script: string)
    ensures center == Ok(true)
    ensures Contains(script, "center = isCentered")
  {
    var v := Variable("isCentered", Boolean(true));
    var c := new Cylinder();
    var s0 := c.State();
    ParsePropertyName(Center);
    var outcome := c.Bind(PropertyName(Center), v);
    var s := c.State();
    CenterRead(s0, v);
    CenterText(s0, v);
    center := FlagOf(s, Center);
    script := CylinderScript(s);
  }

  /** Whatever the cylinder, binding `Center` to a variable holding true makes
      the accessor return true. */
  lemma CenterRead(s: CylinderState, v: Expr)
    requires v == Variable("isCentered", Boolean(true))
    ensures FlagOf(BindState(s, Center, v), Center) == Ok(true)
  {
    ReadAfterBind(s, Center, v);
  }

  /** Whatever the cylinder, binding `Center` to `isCentered` shows
      `center = isCentered`. */
  lemma CenterText(s: CylinderState, v: Expr)
    requires v == Variable("isCentered", Boolean(true))
    ensures Contains(CylinderScript(BindState(s, Center, v)), "center = isCentered")
  {
    BindShowsText(s, Center, v);
    CenterEntryText(v);
  }

  /** The entry text of `Center` bound to `isCentered`. */
  lemma CenterEntryText(v: Expr)
    requires v == Variable("isCentered", Boolean(true))
    ensures KeyOf(Center) + " = " + Render(v) == "center = isCentered"
  {
    assert KeyOf(Center) == "center";
    assert Render(v) == "isCentered";
    assert "center" + " = " + "isCentered" == "center = isCentered";
  }

    /** Binding Radius to `radius` (45) and then Diameter to `diameter` (15.5):
      after the first bind Radius reads 45 and the statement shows `r = radius`
      but not `d = diameter`; after the second Diameter reads 15.5 and the
      statement shows `d = diameter` but not `r = radius`. */
  method RadiusThenDiameter()
    returns (before: seq<Property>, after: seq<Property>, radius: Result<real>, diameter: Result<real>,
             first: string, second: string)
    ensures Radius in before && Diameter !in before
    ensures Diameter in after && Radius !in after
    ensures radius == Ok(45.0) && diameter == Ok(15.5)
    ensures Contains(first, "r = radius") && !Contains(first, "d = diameter")
    ensures Contains(second, "d = diameter") && !Contains(second, "r = radius")
  {
    var r := Variable("radius", Number(45.0));
    var d := Variable("diameter", Number(15.5));
    var c := new Cylinder();
    var s0 := c.State();
    ParsePropertyName(Radius);
    ParsePropertyName(Diameter);
    var _ := c.Bind(PropertyName(Radius), r);
    var s1 := c.State();
    ShownAfterBind(s0, Radius, r, Diameter);
    RadiusFirstFacts(s0, r);
    before := Shown(CylinderEntries(s1));
    radius := AmountOf(s1, Radius);
    first := CylinderScript(s1);
    var _ := c.Bind(PropertyName(Diameter), d);
    var s2 := c.State();
    ShownAfterBind(s1, Diameter, d, Radius);
    DiameterSecondFacts(s0, r, d);
    after := Shown(CylinderEntries(s2));
    diameter := AmountOf(s2, Diameter);
    second := CylinderScript(s2);
  }

  /** On a cylinder without bindings, settings or centring, binding Radius to
      `radius` (45) reads 45, shows `r = radius`, and has no `m` at all, so no
      `d = diameter`. */
  lemma RadiusFirstFacts(s: CylinderState, r: Expr)
    requires s.bindings == map[] && !s.center
    requires s.resolution.None? && s.minimumAngle.None? && s.minimumCircumferentialLength.None?
    requires r == Variable("radius", Number(45.0))
    ensures var t := BindState(s, Radius, r);
      && AmountOf(t, Radius) == Ok(45.0)
      && Contains(CylinderScript(t), "r = radius")
      && !Contains(CylinderScript(t), "d = diameter")
  {
    NumberRead(s, Radius, r, 45.0);
    BindShowsText(s, Radius, r);
    RadiusText(r);
    RadiusFirstAbsent(s, r);
  }

  lemma RadiusFirstAbsent(s: CylinderState, r: Expr)
    requires s.bindings == map[] && !s.center
    requires s.resolution.None? && s.minimumAngle.None? && s.minimumCircumferentialLength.None?
    requires r == Variable("radius", Number(45.0))
    ensures !Contains(CylinderScript(BindState(s, Radius, r)), "d = diameter")
  {
    AvoidsM(s.center, r);
    LoneBindingAvoids(s, Radius, r, 'm');
    AbsentCharacter(CylinderScript(BindState(s, Radius, r)), "d = diameter", 'm');
  }

  /** Binding Diameter to `diameter` (15.5) after that reads 15.5, shows
      `d = diameter`, and has no `u` at all, so no `r = radius`. */
  lemma DiameterSecondFacts(s: CylinderState, r: Expr, d: Expr)
    requires s.bindings == map[] && !s.center
    requires s.resolution.None? && s.minimumAngle.None? && s.minimumCircumferentialLength.None?
    requires r == Variable("radius", Number(45.0)) && d == Variable("diameter", Number(15.5))
    ensures var t := BindState(BindState(s, Radius, r), Diameter, d);
      && AmountOf(t, Diameter) == Ok(15.5)
      && Contains(CylinderScript(t), "d = diameter")
      && !Contains(CylinderScript(t), "r = radius")
  {
    var t1 := BindState(s, Radius, r);
    NumberRead(t1, Diameter, d, 15.5);
    BindShowsText(t1, Diameter, d);
    DiameterText(d);
    DiameterSecondAbsent(s, r, d);
  }

  lemma DiameterSecondAbsent(s: CylinderState, r: Expr, d: Expr)
    requires s.bindings == map[] && !s.center
    requires s.resolution.None? && s.minimumAngle.None? && s.minimumCircumferentialLength.None?
    requires r == Variable("radius", Number(45.0)) && d == Variable("diameter", Number(15.5))
    ensures !Contains(CylinderScript(BindState(BindState(s, Radius, r), Diameter, d)), "r = radius")
  {
    var t1 := BindState(s, Radius, r);
    BindKeepsOthers(s, Radius, r);
    assert forall p :: p in t1.bindings ==> p == Radius;
    AvoidsU(t1.center, d);
    LoneBindingAvoids(t1, Diameter, d, 'u');
    AbsentCharacter(CylinderScript(BindState(t1, Diameter, d)), "r = radius", 'u');
  }

  /** `m` is in no part of the statement of a cylinder uncentred and bound to `radius`. */
  lemma AvoidsM(center: bool, r: Expr)
    requires !center && r == Variable("radius", Number(45.0))
    ensures NamesAvoid(r, 'm') && !IsNumeralChar('m') && 'm' !in " +-*/" && 'm' !in BoolText(center)
    ensures 'm' !in "cylinder" && 'm' !in "(); =," && 'm' !in "centrhd"
  {
  }

  /** `u` is in no part of the statement of a cylinder uncentred and bound to `diameter`. */
  lemma AvoidsU(center: bool, d: Expr)
    requires !center && d == Variable("diameter", Number(15.5))
    ensures NamesAvoid(d, 'u') && !IsNumeralChar('u') && 'u' !in " +-*/" && 'u' !in BoolText(center)
    ensures 'u' !in "cylinder" && 'u' !in "(); =," && 'u' !in "centrhd"
  {
  }

  lemma RadiusText(r: Expr)
    requires r == Variable("radius", Number(45.0))
    ensures KeyOf(Radius) + " = " + Render(r) == "r = radius"
  {
  }

  lemma DiameterText(d: Expr)
    requires d == Variable("diameter", Number(15.5))
    ensures KeyOf(Diameter) + " = " + Render(d) == "d = diameter"
  {
  }

  /** After a binding its property is shown and the given rival is not. */
  lemma ShownAfterBind(s: CylinderState, p: Property, v: Expr, q: Property)
    requires q in Rivals(p)
    ensures p in Shown(CylinderEntries(BindState(s, p, v)))
    ensures q !in Shown(CylinderEntries(BindState(s, p, v)))
  {
    var entries := CylinderEntries(BindState(s, p, v));
    BindShowsEntry(s, p, v);
    BindHidesRivals(s, p, v);
    var k :| 0 <= k < |entries| && entries[k] == Entry(p, ExprArg(v));
    assert Shown(entries)[k] == p;
  }

  /** After binding a numeric property to a variable holding x, its accessor
      returns x. */
  lemma NumberRead(s: CylinderState, p: Property, v: Expr, x: real)
    requires p != Center && v.Variable? && v.value == Number(x)
    ensures AmountOf(BindState(s, p, v), p) == Ok(x)
  {
    ReadAfterBind(s, p, v);
  }

  /** Binding Radius1 to `radius1` (5) and then Radius2 to `radius2` (25): both
      accessors return the values and the statement shows `r1 = radius1` and
      `r2 = radius2`. */
  method EndRadiiBinding() returns (r1: Result<real>, r2: Result<real>, script: string)
    ensures r1 == Ok(5.0) && r2 == Ok(25.0)
    ensures Contains(script, "r1 = radius1") && Contains(script, "r2 = radius2")
  {
    var v1 := Variable("radius1", Number(5.0));
    var v2 := Variable("radius2", Number(25.0));
    var c := new Cylinder();
    var s0 := c.State();
    ParsePropertyName(Radius1);
    ParsePropertyName(Radius2);
    var _ := c.Bind(PropertyName(Radius1), v1);
    var _ := c.Bind(PropertyName(Radius2), v2);
    var s := c.State();
    EndRadiiFacts(s0, v1, v2);
    r1 := AmountOf(s, Radius1);
    r2 := AmountOf(s, Radius2);
    script := CylinderScript(s);
  }

  /** Binding Diameter1 and then Diameter2, both to variables named
      `diameter2` (5 and 25): both accessors return the values and the
      statement shows `d1 = diameter2` and `d2 = diameter2`. */
  method EndDiametersBinding() returns (d1: Result<real>, d2: Result<real>, script: string)
    ensures d1 == Ok(5.0) && d2 == Ok(25.0)
    ensures Contains(script, "d1 = diameter2") && Contains(script, "d2 = diameter2")
  {
    var v1 := Variable("diameter2", Number(5.0));
    var v2 := Variable("diameter2", Number(25.0));
    var c := new Cylinder();
    var s0 := c.State();
    ParsePropertyName(Diameter1);
    ParsePropertyName(Diameter2);
    var _ := c.Bind(PropertyName(Diameter1), v1);
    var _ := c.Bind(PropertyName(Diameter2), v2);
    var s := c.State();
    EndDiametersFacts(s0, v1, v2);
    d1 := AmountOf(s, Diameter1);
    d2 := AmountOf(s, Diameter2);
    script := CylinderScript(s);
  }

  /** Whatever the cylinder with an exclusive registry, binding Radius1 to
      `radius1` (5) and then Radius2 to `radius2` (25) reads back 5 and 25 and
      shows `r1 = radius1` and `r2 = radius2`. */
  lemma EndRadiiFacts(s: CylinderState, v1: Expr, v2: Expr)
    requires Exclusive(s.bindings)
    requires v1 == Variable("radius1", Number(5.0)) && v2 == Variable("radius2", Number(25.0))
    ensures var t := BindState(BindState(s, Radius1, v1), Radius2, v2);
      && AmountOf(t, Radius1) == Ok(5.0) && AmountOf(t, Radius2) == Ok(25.0)
      && Contains(CylinderScript(t), "r1 = radius1") && Contains(CylinderScript(t), "r2 = radius2")
  {
    EndsRead(s, Radius1, v1, 5.0, Radius2, v2, 25.0);
    EndsShown(s, Radius1, v1, Radius2, v2);
    RadiiTexts(v1, v2);
  }

  lemma RadiiTexts(v1: Expr, v2: Expr)
    requires v1 == Variable("radius1", Number(5.0)) && v2 == Variable("radius2", Number(25.0))
    ensures KeyOf(Radius1) + " = " + Render(v1) == "r1 = radius1"
    ensures KeyOf(Radius2) + " = " + Render(v2) == "r2 = radius2"
  {
    assert "r1" + " = " + "radius1" == "r1 = radius1";
    assert "r2" + " = " + "radius2" == "r2 = radius2";
  }

  /** Whatever the cylinder with an exclusive registry, binding Diameter1 and
      then Diameter2 to variables named `diameter2` holding 5 and 25 reads back
      5 and 25 and shows `d1 = diameter2` and `d2 = diameter2`. */
  lemma EndDiametersFacts(s: CylinderState, v1: Expr, v2: Expr)
    requires Exclusive(s.bindings)
    requires v1 == Variable("diameter2", Number(5.0)) && v2 == Variable("diameter2", Number(25.0))
    ensures var t := BindState(BindState(s, Diameter1, v1), Diameter2, v2);
      && AmountOf(t, Diameter1) == Ok(5.0) && AmountOf(t, Diameter2) == Ok(25.0)
      && Contains(CylinderScript(t), "d1 = diameter2") && Contains(CylinderScript(t), "d2 = diameter2")
  {
    EndsRead(s, Diameter1, v1, 5.0, Diameter2, v2, 25.0);
    EndsShown(s, Diameter1, v1, Diameter2, v2);
    DiametersTexts(v1, v2);
  }

  lemma DiametersTexts(v1: Expr, v2: Expr)
    requires v1 == Variable("diameter2", Number(5.0)) && v2 == Variable("diameter2", Number(25.0))
    ensures KeyOf(Diameter1) + " = " + Render(v1) == "d1 = diameter2"
    ensures KeyOf(Diameter2) + " = " + Render(v2) == "d2 = diameter2"
  {
    assert "d1" + " = " + "diameter2" == "d1 = diameter2";
    assert "d2" + " = " + "diameter2" == "d2 = diameter2";
  }

  /** Binding the first end and then the second, each to a variable holding a
      number: both accessors return those numbers. */
  lemma EndsRead(s: CylinderState, p: Property, v: Expr, x: real, q: Property, w: Expr, y: real)
    requires (p, q) == (Radius1, Radius2) || (p, q) == (Diameter1, Diameter2)
    requires v.Variable? && v.value == Number(x) && w.Variable? && w.value == Number(y)
    ensures AmountOf(BindState(BindState(s, p, v), q, w), p) == Ok(x)
    ensures AmountOf(BindState(BindState(s, p, v), q, w), q) == Ok(y)
  {
    ReadAfterLaterBind(s, p, v, q, w);
    ReadAfterBind(BindState(s, p, v), q, w);
  }

  /** Binding the first end and then the second to any variables on an
      exclusive registry: the statement shows both. */
  lemma EndsShown(s: CylinderState, p: Property, v: Expr, q: Property, w: Expr)
    requires Exclusive(s.bindings)
    requires (p, q) == (Radius1, Radius2) || (p, q) == (Diameter1, Diameter2)
    ensures var script := CylinderScript(BindState(BindState(s, p, v), q, w));
      && Contains(script, KeyOf(p) + " = " + Render(v))
      && Contains(script, KeyOf(q) + " = " + Render(w))
  {
    var t := BindState(BindState(s, p, v), q, w);
    BindKeepsExclusive(s.bindings, p, v);
    BindKeepsExclusive(BindState(s, p, v).bindings, q, w);
    BoundTextShown(t, p);
    BoundTextShown(t, q);
  }

  /** Binding resolution, minimum angle and minimum circumferential length to
      `resolution`, `angle` and `circLength` shows `$fn = resolution`,
      `$fa = angle` and `$fs = circLength`. */
  method SettingsBinding() returns (script: string)
    ensures Contains(script, "$fn = resolution")
    ensures Contains(script, "$fa = angle")
    ensures Contains(script, "$fs = circLength")
  {
    var v1 := Variable("resolution", Number(30.0));
    var v2 := Variable("angle", Number(5.0));
    var v3 := Variable("circLength", Number(10.0));
    var c := new Cylinder();
    var s0 := c.State();
    ParsePropertyName(Resolution);
    ParsePropertyName(MinimumAngle);
    ParsePropertyName(MinimumCircumferentialLength);
    var _ := c.Bind(PropertyName(Resolution), v1);
    var _ := c.Bind(PropertyName(MinimumAngle), v2);
    var _ := c.Bind(PropertyName(MinimumCircumferentialLength), v3);
    var s := c.State();
    SettingsShown(s0, v1, v2, v3);
    SettingsTexts(v1, v2, v3);
    script := CylinderScript(s);
  }

  /** Binding the three settings in turn on an exclusive registry: the
      statement shows each with its variable's text. */
  lemma SettingsShown(s: CylinderState, v1: Expr, v2: Expr, v3: Expr)
    requires Exclusive(s.bindings)
    ensures var t := BindState(BindState(BindState(s, Resolution, v1), MinimumAngle, v2), MinimumCircumferentialLength, v3);
      && Contains(CylinderScript(t), KeyOf(Resolution) + " = " + Render(v1))
      && Contains(CylinderScript(t), KeyOf(MinimumAngle) + " = " + Render(v2))
      && Contains(CylinderScript(t), KeyOf(MinimumCircumferentialLength) + " = " + Render(v3))
  {
    var s1 := BindState(s, Resolution, v1);
    var s2 := BindState(s1, MinimumAngle, v2);
    var t := BindState(s2, MinimumCircumferentialLength, v3);
    BindKeepsExclusive(s.bindings, Resolution, v1);
    BindKeepsExclusive(s1.bindings, MinimumAngle, v2);
    BindKeepsExclusive(s2.bindings, MinimumCircumferentialLength, v3);
    BoundTextShown(t, Resolution);
    BoundTextShown(t, MinimumAngle);
    BoundTextShown(t, MinimumCircumferentialLength);
  }

  lemma SettingsTexts(v1: Expr, v2: Expr, v3: Expr)
    requires v1 == Variable("resolution", Number(30.0)) && v2 == Variable("angle", Number(5.0))
    requires v3 == Variable("circLength", Number(10.0))
    ensures KeyOf(Resolution) + " = " + Render(v1) == "$fn = resolution"
    ensures KeyOf(MinimumAngle) + " = " + Render(v2) == "$fa = angle"
    ensures KeyOf(MinimumCircumferentialLength) + " = " + Render(v3) == "$fs = circLength"
  {
    ResolutionText(v1);
    AngleText(v2);
    CircLengthText(v3);
  }

  lemma ResolutionText(v: Expr)
    requires v.Variable? && v.name == "resolution"
    ensures KeyOf(Resolution) + " = " + Render(v) == "$fn = resolution"
  {
    assert "$fn" + " = " + "resolution" == "$fn = resolution";
  }

  lemma AngleText(v: Expr)
    requires v.Variable? && v.name == "angle"
    ensures KeyOf(MinimumAngle) + " = " + Render(v) == "$fa = angle"
  {
    assert "$fa" + " = " + "angle" == "$fa = angle";
  }

  lemma CircLengthText(v: Expr)
    requires v.Variable? && v.name == "circLength"
    ensures KeyOf(MinimumCircumferentialLength) + " = " + Render(v) == "$fs = circLength"
  {
    assert "$fs" + " = " + "circLength" == "$fs = circLength";
  }

  /** A cylinder made from `mainColumn` (half an inch) for both diameters and
      `overallHeight` (a quarter inch) for the height: the diameter and height
      accessors return those values and the statement shows `d1 = mainColumn`,
      `d2 = mainColumn` and `h = overallHeight`. */
  method PreBoundCylinder(half: real, quarter: real) returns (diameter: Result<real>, height: Result<real>, script: string)
    ensures diameter == Ok(half) && height == Ok(quarter)
    ensures Contains(script, "d1 = mainColumn") && Contains(script, "d2 = mainColumn")
    ensures Contains(script, "h = overallHeight")
  {
    var diam := Variable("mainColumn", Number(half));
    var h := Variable("overallHeight", Number(quarter));
    var c := new Cylinder.OfVariables(diam, diam, h, None);
    var s := c.State();
    PreBoundFacts(half, quarter, diam, h);
    diameter := AmountOf(s, Diameter);
    height := AmountOf(s, Height);
    script := CylinderScript(s);
  }

  /** The readings and texts of a cylinder made from `mainColumn` and
      `overallHeight`. */
  lemma PreBoundFacts(half: real, quarter: real, diam: Expr, h: Expr)
    requires diam == Variable("mainColumn", Number(half)) && h == Variable("overallHeight", Number(quarter))
    ensures var s := BoundCylinder(diam, diam, h, None);
      && AmountOf(s, Diameter) == Ok(half) && AmountOf(s, Height) == Ok(quarter)
      && Contains(CylinderScript(s), "d1 = mainColumn") && Contains(CylinderScript(s), "d2 = mainColumn")
      && Contains(CylinderScript(s), "h = overallHeight")
  {
    BoundCylinderReads(diam, diam, h, None);
    BoundCylinderShows(diam, diam, h, None);
    ColumnTexts(diam, h);
  }

  lemma ColumnTexts(diam: Expr, h: Expr)
    requires diam.Variable? && diam.name == "mainColumn" && h.Variable? && h.name == "overallHeight"
    ensures "d1 = " + Render(diam) == "d1 = mainColumn" && "d2 = " + Render(diam) == "d2 = mainColumn"
    ensures "h = " + Render(h) == "h = overallHeight"
  {
    MainColumnText(diam);
    OverallHeightText(h);
  }

  lemma MainColumnText(diam: Expr)
    requires diam.Variable? && diam.name == "mainColumn"
    ensures "d1 = " + Render(diam) == "d1 = mainColumn" && "d2 = " + Render(diam) == "d2 = mainColumn"
  {
  }

  lemma OverallHeightText(h: Expr)
    requires h.Variable? && h.name == "overallHeight"
    ensures "h = " + Render(h) == "h = overallHeight"
  {
  }

  /** A centred cylinder made from variables, rotated by `myRot` and coloured
      `myColor`: the script of the clone as the program makes it still shows
      the colour, the rotation and every bound variable. */
  lemma ClonedWrappedCylinder(half: real, quarter: real, rotation: Vector3, opacity: real)
    ensures var diam := Variable("mainColumn", Number(half));
      var h := Variable("overallHeight", Number(quarter));
      var center := Variable("isCentered", Boolean(true));
      var cyl := CylinderNode(BoundCylinder(diam, diam, h, Some(center)));
      var n := Colored(Rotated(cyl, Variable("myRot", Vector(rotation))), Variable("myColor", Characters("Blue")), opacity);
      var script := Script(CloneAsWritten(n));
      && Contains(script, "color(myColor")
      && Contains(script, "rotate(myRot)")
      && Contains(script, "center = isCentered")
      && Contains(script, "d1 = mainColumn")
      && Contains(script, "d2 = mainColumn")
      && Contains(script, "h = overallHeight")
  {
    var diam := Variable("mainColumn", Number(half));
    var h := Variable("overallHeight", Number(quarter));
    var center := Variable("isCentered", Boolean(true));
    var cyl := CylinderNode(BoundCylinder(diam, diam, h, Some(center)));
    var rotated := Rotated(cyl, Variable("myRot", Vector(rotation)));
    var n := Colored(rotated, Variable("myColor", Characters("Blue")), opacity);
    CloneAsWrittenKeepsScript(n);
    BoundCylinderShows(diam, diam, h, Some(center));
    ColumnTexts(diam, h);
    CenteredText(center);
    WrappedTwice(n, "center = isCentered");
    WrappedTwice(n, "d1 = mainColumn");
    WrappedTwice(n, "d2 = mainColumn");
    WrappedTwice(n, "h = overallHeight");
    WrapperHeadersShown(n);
  }

  /** Text in the script of the node inside two wrappers appears in the outer
      script. */
  lemma WrappedTwice(n: Node, t: string)
    requires IsWrapper(n) && IsWrapper(n.child)
    requires Contains(Script(n.child.child), t)
    ensures Contains(Script(n), t)
  {
    WrapperEmbedsChild(n);
    WrapperEmbedsChild(n.child);
    ContainsTransitive(Script(n.child), Script(n.child.child), t);
    ContainsTransitive(Script(n), Script(n.child), t);
  }

  /** A colour around a rotation shows `color(<colour>` and `rotate(<angle>)`. */
  lemma WrapperHeadersShown(n: Node)
    requires n.Colored? && n.color == Variable("myColor", Characters("Blue"))
    requires n.child.Rotated? && n.child.angle.Variable? && n.child.angle.name == "myRot"
    ensures Contains(Script(n), "color(myColor")
    ensures Contains(Script(n), "rotate(myRot)")
  {
    WrapperEmbedsChild(n);
    WrapperEmbedsChild(n.child);
    var header := ColorHeader(n.color, n.opacity);
    ColorHeaderOpens(n.color, n.opacity);
    ColorText(n.color);
    StartsWithPrefix(Script(n), header, "color(myColor");
    ContainsPrefix(Script(n), "color(myColor");
    RotateText(n.child.angle);
    ContainsPrefix(Script(n.child), "rotate(myRot)");
    ContainsTransitive(Script(n), Script(n.child), "rotate(myRot)");
  }

  lemma CenteredText(center: Expr)
    requires center.Variable? && center.name == "isCentered"
    ensures "center = " + Render(center) == "center = isCentered"
  {
  }

  lemma ColorText(color: Expr)
    requires color.Variable? && color.name == "myColor"
    ensures "color(" + Render(color) == "color(myColor"
  {
  }

  lemma RotateText(angle: Expr)
    requires angle.Variable? && angle.name == "myRot"
    ensures RotateHeader(angle) == "rotate(myRot)"
  {
    assert "rotate(" + "myRot" + ")" == "rotate(myRot)";
  }

  /** The wheel-hole cylinder of the arithmetic example: its statement shows
      the arithmetic as written, unevaluated. */
  lemma WheelCylinder(thickness: real, hole: real)
    ensures var wheelThickness := Variable("wheelThickness", Number(thickness));
      var wheelHole := Variable("wheelHoleDiameter", Number(hole));
      var d := Binary(Sub, wheelHole, Literal(1.0));
      CylinderScript(BoundCylinder(d, d, Binary(Add, wheelThickness, Literal(2.0)), None))
      == "cylinder(center = false, d1 = " + "wheelHoleDiameter - 1" + ", d2 = " + "wheelHoleDiameter - 1"
         + ", h = " + "wheelThickness + 2" + ");"
  {
    var wheelThickness := Variable("wheelThickness", Number(thickness));
    var wheelHole := Variable("wheelHoleDiameter", Number(hole));
    var d := Binary(Sub, wheelHole, Literal(1.0));
    UncentredBoundScript(d, d, Binary(Add, wheelThickness, Literal(2.0)));
    WheelArguments(thickness, hole);
  }

  /** The wheel-hole cylinder translated by (0, -wheelDiameter / 2 +
      wheelHoleDiameter / 2, 0): the node's script opens with the translation
      as written and contains the cylinder's statement as written. */
  lemma WheelTranslated(thickness: real, hole: real, wheel: real)
    ensures var wheelThickness := Variable("wheelThickness", Number(thickness));
      var wheelHole := Variable("wheelHoleDiameter", Number(hole));
      var wheelDiameter := Variable("wheelDiameter", Number(wheel));
      var d := Binary(Sub, wheelHole, Literal(1.0));
      var dy := Binary(Add, Binary(Div, Negate(wheelDiameter), Literal(2.0)), Binary(Div, wheelHole, Literal(2.0)));
      var n := Translated(CylinderNode(BoundCylinder(d, d, Binary(Add, wheelThickness, Literal(2.0)), None)),
                          Literal(0.0), dy, Literal(0.0));
      && StartsWith(Script(n), "translate(v = [0, " + "-wheelDiameter / 2" + " + " + "wheelHoleDiameter / 2" + ", 0])")
      && Contains(Script(n), "cylinder(center = false, d1 = " + "wheelHoleDiameter - 1" + ", d2 = "
                             + "wheelHoleDiameter - 1" + ", h = " + "wheelThickness + 2" + ");")
  {
    var wheelThickness := Variable("wheelThickness", Number(thickness));
    var wheelHole := Variable("wheelHoleDiameter", Number(hole));
    var wheelDiameter := Variable("wheelDiameter", Number(wheel));
    var d := Binary(Sub, wheelHole, Literal(1.0));
    var dy := Binary(Add, Binary(Div, Negate(wheelDiameter), Literal(2.0)), Binary(Div, wheelHole, Literal(2.0)));
    var n := Translated(CylinderNode(BoundCylinder(d, d, Binary(Add, wheelThickness, Literal(2.0)), None)),
                        Literal(0.0), dy, Literal(0.0));
    WrapperEmbedsChild(n);
    WheelOffset(wheel, hole);
    WheelCylinder(thickness, hole);
  }

  /** The wheel-hole cylinder reads its diameters as the hole diameter minus 1
      and its height as the thickness plus 2. */
  lemma WheelReadings(thickness: real, hole: real)
    ensures var wheelThickness := Variable("wheelThickness", Number(thickness));
      var wheelHole := Variable("wheelHoleDiameter", Number(hole));
      var d := Binary(Sub, wheelHole, Literal(1.0));
      var s := BoundCylinder(d, d, Binary(Add, wheelThickness, Literal(2.0)), None);
      && AmountOf(s, Diameter1) == Ok(hole - 1.0)
      && AmountOf(s, Diameter2) == Ok(hole - 1.0)
      && AmountOf(s, Height) == Ok(thickness + 2.0)
  {
    var wheelThickness := Variable("wheelThickness", Number(thickness));
    var wheelHole := Variable("wheelHoleDiameter", Number(hole));
    var d := Binary(Sub, wheelHole, Literal(1.0));
    var h := Binary(Add, wheelThickness, Literal(2.0));
    assert Eval(d) == Some(hole - 1.0);
    assert Eval(h) == Some(thickness + 2.0);
    SameEndsRead(d, h, hole - 1.0, thickness + 2.0);
  }

  /** An uncentred cylinder made from one diameter expression for both ends and
      a height expression reads their values. */
  lemma SameEndsRead(d: Expr, h: Expr, x: real, y: real)
    requires Eval(d) == Some(x) && Eval(h) == Some(y)
    ensures var s := BoundCylinder(d, d, h, None);
      && AmountOf(s, Diameter1) == Ok(x) && AmountOf(s, Diameter2) == Ok(x) && AmountOf(s, Height) == Ok(y)
  {
    BoundCylinderReads(d, d, h, None);
  }

  /** The translation's y offset evaluates to half the hole diameter less half
      the wheel diameter. */
  lemma WheelOffsetValue(hole: real, wheel: real)
    ensures Eval(Binary(Add, Binary(Div, Negate(Variable("wheelDiameter", Number(wheel))), Literal(2.0)),
                         Binary(Div, Variable("wheelHoleDiameter", Number(hole)), Literal(2.0))))
         == Some(hole / 2.0 - wheel / 2.0)
  {
    var wheelDiameter := Variable("wheelDiameter", Number(wheel));
    var wheelHole := Variable("wheelHoleDiameter", Number(hole));
    assert Eval(Negate(wheelDiameter)) == Some(-wheel);
    assert Eval(Binary(Div, Negate(wheelDiameter), Literal(2.0))) == Some(-wheel / 2.0);
    assert Eval(Binary(Div, wheelHole, Literal(2.0))) == Some(hole / 2.0);
  }

  /** The diameter and height arguments of the wheel-hole cylinder render as
      written. */
  lemma WheelArguments(thickness: real, hole: real)
    ensures Render(Binary(Sub, Variable("wheelHoleDiameter", Number(hole)), Literal(1.0))) == "wheelHoleDiameter - 1"
    ensures Render(Binary(Add, Variable("wheelThickness", Number(thickness)), Literal(2.0))) == "wheelThickness + 2"
  {
    NatTextOfIntegral(1);
    NatTextOfIntegral(2);
  }

  /** The offset of the arithmetic example renders without evaluation. */
  lemma WheelOffset(wheel: real, hole: real)
    ensures var wheelDiameter := Variable("wheelDiameter", Number(wheel));
      var wheelHole := Variable("wheelHoleDiameter", Number(hole));
      var dy := Binary(Add, Binary(Div, Negate(wheelDiameter), Literal(2.0)), Binary(Div, wheelHole, Literal(2.0)));
      TranslateHeader(Literal(0.0), dy, Literal(0.0))
      == "translate(v = [0, " + "-wheelDiameter / 2" + " + " + "wheelHoleDiameter / 2" + ", 0])"
  {
    var wheelDiameter := Variable("wheelDiameter", Number(wheel));
    var wheelHole := Variable("wheelHoleDiameter", Number(hole));
    NatTextOfIntegral(0);
    Summed(Binary(Div, Negate(wheelDiameter), Literal(2.0)), Binary(Div, wheelHole, Literal(2.0)));
    Halved(Negate(wheelDiameter));
    Halved(wheelHole);
    OffsetPieces();
    TranslateAtZero("-wheelDiameter / 2" + " + " + "wheelHoleDiameter / 2");
  }

  /** A sum renders as its operands around ` + `. */
  lemma Summed(l: Expr, r: Expr)
    ensures Render(Binary(Add, l, r)) == Render(l) + " + " + Render(r)
  {
    assert " " + "+" + " " == " + ";
  }

  /** The halves of the offset, put together. */
  lemma OffsetPieces()
    ensures "-" + "wheelDiameter" + " / 2" == "-wheelDiameter / 2"
    ensures "wheelHoleDiameter" + " / 2" == "wheelHoleDiameter / 2"
  {
  }

  /** Half of an expression renders as the expression followed by ` / 2`. */
  lemma Halved(e: Expr)
    ensures Render(Binary(Div, e, Literal(2.0))) == Render(e) + " / 2"
  {
    NatTextOfIntegral(2);
    assert " " + "/" + " " + "2" == " / 2";
  }

  /** A translation by zero along x and z around a given y offset. */
  lemma TranslateAtZero(dy: string)
    ensures "translate(v = [" + "0" + ", " + dy + ", " + "0" + "])" == "translate(v = [0, " + dy + ", 0])"
  {
    assert "translate(v = [" + "0" + ", " == "translate(v = [0, ";
    assert ", " + "0" + "])" == ", 0])";
  }

  // Spheres.

  /** A sphere made from diameter 10 has radius 5. */
  method SphereRadius() returns (radius: real)
    ensures radius == 5.0
  {
    var s := new Sphere.OfDiameter(10.0);
    radius := s.radius;
  }

  /** Setting resolution 30 on a sphere of diameter 10 shows `$fn = 30`. */
  method SphereResolution() returns (script: string)
    ensures Contains(script, "$fn = 30")
  {
    var s := new Sphere.OfDiameter(10.0);
    s.SetResolution(30.0);
    script := SphereScript(s.State());
    ResolutionThirtyShown(s.State());
  }

  /** Setting minimum angle 2 and minimum fragment size 4 on a sphere of
      diameter 10 shows `$fa = 2` and `$fs = 4`. */
  method SphereAngleAndFragmentSize() returns (script: string)
    ensures Contains(script, "$fa = 2") && Contains(script, "$fs = 4")
  {
    var s := new Sphere.OfDiameter(10.0);
    s.SetMinimumAngle(2.0);
    s.SetMinimumFragmentSize(4.0);
    script := SphereScript(s.State());
    AngleAndFragmentShown(s.State());
  }

  /** A sphere made without arguments is a leaf statement: `sphere(` ... `);`. */
  method ParameterlessSphere() returns (script: string)
    ensures StartsWith(script, "sphere(") && EndsWith(script, ");")
  {
    var s := new Sphere();
    script := SphereScript(s.State());
    SphereScriptShape(s.State());
  }

  /** A sphere given diameter 10, minimum angle 5, minimum fragment size 5 and
      resolution 30, in that order, and its clone are equal. */
  method SphereCloneEqual() returns (original: SphereState, copy: SphereState)
    ensures original == copy
    ensures original == SphereState(5.0, Some(30.0), Some(5.0), Some(5.0))
  {
    var s := new Sphere();
    s.SetDiameter(10.0);
    s.SetMinimumAngle(5.0);
    s.SetMinimumFragmentSize(5.0);
    s.SetResolution(30.0);
    var c := s.Clone();
    original := s.State();
    copy := c.State();
  }

  /** Whatever the sphere, resolution 30 shows as `$fn = 30`. */
  lemma ResolutionThirtyShown(s: SphereState)
    requires s.resolution == Some(30.0)
    ensures Contains(SphereScript(s), "$fn = 30")
  {
    SphereShowsResolution(s);
    IntegralText(30, "30");
    assert "$fn = " + "30" == "$fn = 30";
  }

  /** Whatever the sphere, minimum angle 2 and minimum fragment size 4 show as
      `$fa = 2` and `$fs = 4`. */
  lemma AngleAndFragmentShown(s: SphereState)
    requires s.minimumAngle == Some(2.0) && s.minimumFragmentSize == Some(4.0)
    ensures Contains(SphereScript(s), "$fa = 2") && Contains(SphereScript(s), "$fs = 4")
  {
    SphereShowsMinimumAngle(s);
    SphereShowsMinimumFragmentSize(s);
    IntegralText(2, "2");
    IntegralText(4, "4");
    assert "$fa = " + "2" == "$fa = 2";
    assert "$fs = " + "4" == "$fs = 4";
  }

  /** A whole number below 100 renders as its digits. */
  lemma IntegralText(n: nat, digits: string)
    requires n < 100
    requires digits == if n < 10 then [DigitChar(n)] else [DigitChar(n / 10), DigitChar(n % 10)]
    ensures NumText(n as real) == digits
  {
    NatTextOfIntegral(n);
    if n >= 10 {
      assert NatText(n / 10) == [DigitChar(n / 10)];
    }
  }
}
