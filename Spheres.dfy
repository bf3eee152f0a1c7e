/** The sphere primitive: a radius and three optional resolution settings, the
    leaf statement that shows them, and a sphere object whose setters update
    them in place. */
module Spheres {
  import opened Strings
  import opened Scripting
  import opened Outcomes

  /** The state of a sphere: its radius and the resolution settings, absent
      until set. */
  datatype SphereState = SphereState(
    radius: real,
    resolution: Option<real>,
    minimumAngle: Option<real>,
    minimumFragmentSize: Option<real>)

  /** A sphere made without arguments has radius 1 and no settings. */
  const DefaultSphere := SphereState(1.0, None, None, None)

  /** A sphere made from a diameter: the radius is half of it. */
  function SphereOfDiameter(diameter: real): (s: SphereState)
    ensures 2.0 * s.radius == diameter
    ensures s.resolution.None? && s.minimumAngle.None? && s.minimumFragmentSize.None?
  {
    SphereState(diameter / 2.0, None, None, None)
  }

  /** The diameter accessor. */
  function Diameter(s: SphereState): (d: real)
    ensures d / 2.0 == s.radius
  {
    2.0 * s.radius
  }

  /** Setting the diameter keeps the settings and makes the radius half of it. */
  function WithDiameter(s: SphereState, diameter: real): (r: SphereState)
    ensures Diameter(r) == diameter
    ensures r.resolution == s.resolution && r.minimumAngle == s.minimumAngle
    ensures r.minimumFragmentSize == s.minimumFragmentSize
  {
    s.(radius := diameter / 2.0)
  }

  /** A header field that is present only when its value is set. */
  function OptionalField(key: string, value: Option<real>): (fields: seq<Field>)
    ensures value.None? <==> fields == []
    ensures value.Some? ==> fields == [Field(key, NumText(value.value))]
  {
    if value.Some? then [Field(key, NumText(value.value))] else []
  }

  /** The header fields: `r`, then `$fn`, `$fa` and `$fs` when set. */
  function SphereFields(s: SphereState): seq<Field> {
    [Field("r", NumText(s.radius))]
    + OptionalField("$fn", s.resolution)
    + OptionalField("$fa", s.minimumAngle)
    + OptionalField("$fs", s.minimumFragmentSize)
  }

  /** The sphere's leaf statement. */
  function SphereScript(s: SphereState): string {
    Leaf(Header("sphere", SphereFields(s)))
  }

  /** Every sphere's statement opens with `sphere(` and closes with `);`. */
  lemma SphereScriptShape(s: SphereState)
    ensures StartsWith(SphereScript(s), "sphere(")
    ensures EndsWith(SphereScript(s), ");")
  {
    LeafShape("sphere", SphereFields(s));
  }

  /** Every header field appears in the statement as `key = value`. */
  lemma SphereShowsField(s: SphereState, f: Field)
    requires f in SphereFields(s)
    ensures Contains(SphereScript(s), f.key + " = " + f.text)
  {
    LeafShowsField("sphere", SphereFields(s), f);
  }

  /** The statement shows the radius as `r = <radius>`. */
  lemma SphereShowsRadius(s: SphereState)
    ensures Contains(SphereScript(s), "r = " + NumText(s.radius))
  {
    assert "r" + " = " == "r = ";
    SphereShowsField(s, SphereFields(s)[0]);
  }

  /** A set resolution appears as `$fn = <value>`. */
  lemma SphereShowsResolution(s: SphereState)
    requires s.resolution.Some?
    ensures Contains(SphereScript(s), "$fn = " + NumText(s.resolution.value))
  {
    assert "$fn" + " = " == "$fn = ";
    SphereShowsField(s, SphereFields(s)[1]);
  }

  /** A set minimum angle appears as `$fa = <value>`. */
  lemma SphereShowsMinimumAngle(s: SphereState)
    requires s.minimumAngle.Some?
    ensures Contains(SphereScript(s), "$fa = " + NumText(s.minimumAngle.value))
  {
    var f := Field("$fa", NumText(s.minimumAngle.value));
    assert f in OptionalField("$fa", s.minimumAngle);
    assert "$fa" + " = " == "$fa = ";
    SphereShowsField(s, f);
  }

  /** A set minimum fragment size appears as `$fs = <value>`. */
  lemma SphereShowsMinimumFragmentSize(s: SphereState)
    requires s.minimumFragmentSize.Some?
    ensures Contains(SphereScript(s), "$fs = " + NumText(s.minimumFragmentSize.value))
  {
    var f := Field("$fs", NumText(s.minimumFragmentSize.value));
    assert f in OptionalField("$fs", s.minimumFragmentSize);
    assert "$fs" + " = " == "$fs = ";
    SphereShowsField(s, f);
  }

  /** A sphere without settings has no `$fn`, `$fa` or `$fs` in its statement. */
  lemma UnsetSphereSettingsAbsent(s: SphereState)
    requires s.resolution.None? && s.minimumAngle.None? && s.minimumFragmentSize.None?
    ensures !Contains(SphereScript(s), "$fn")
    ensures !Contains(SphereScript(s), "$fa")
    ensures !Contains(SphereScript(s), "$fs")
  {
    var fields := SphereFields(s);
    assert fields == [Field("r", NumText(s.radius))];
    LeafAvoids("sphere", fields, '$');
    AbsentCharacter(SphereScript(s), "$fn", '$');
    AbsentCharacter(SphereScript(s), "$fa", '$');
    AbsentCharacter(SphereScript(s), "$fs", '$');
  }

  /** A sphere object: its radius and settings, updated in place by its setters. */
  class Sphere {
    var radius: real
    var resolution: Option<real>
    var minimumAngle: Option<real>
    var minimumFragmentSize: Option<real>

    function State(): SphereState
      reads this
    {
      SphereState(radius, resolution, minimumAngle, minimumFragmentSize)
    }

    constructor ()
      ensures State() == DefaultSphere
    {
      radius := 1.0;
      resolution, minimumAngle, minimumFragmentSize := None, None, None;
    }

    constructor OfDiameter(diameter: real)
      ensures State() == SphereOfDiameter(diameter)
    {
      radius := diameter / 2.0;
      resolution, minimumAngle, minimumFragmentSize := None, None, None;
    }

    method SetDiameter(diameter: real)
      modifies this
      ensures State() == WithDiameter(old(State()), diameter)
    {
      radius := diameter / 2.0;
    }

    method SetResolution(x: real)
      modifies this
      ensures State() == old(State()).(resolution := Some(x))
    {
      resolution := Some(x);
    }

    method SetMinimumAngle(x: real)
      modifies this
      ensures State() == old(State()).(minimumAngle := Some(x))
    {
      minimumAngle := Some(x);
    }

    method SetMinimumFragmentSize(x: real)
      modifies this
      ensures State() == old(State()).(minimumFragmentSize := Some(x))
    {
      minimumFragmentSize := Some(x);
    }

    /** A new, independent sphere equal to this one. */
    method Clone() returns (c: Sphere)
      ensures fresh(c) && c.State() == State()
    {
      c := new Sphere();
      c.radius, c.resolution, c.minimumAngle, c.minimumFragmentSize := radius, resolution, minimumAngle, minimumFragmentSize;
    }
  }
}
