/** The cylinder primitive: its literal properties, the bindings that tie
    properties to variables, the readings its accessors return, its geometry and
    its statement text. */
module Cylinders {
  import opened Strings
  import opened Spatial
  import opened Outcomes
  import opened DataBinding
  import opened Scripting

  /** The bindable properties of a cylinder. */
  datatype Property =
    | Center | Height
    | Radius | Radius1 | Radius2
    | Diameter | Diameter1 | Diameter2
    | Resolution | MinimumAngle | MinimumCircumferentialLength

  /** The name under which `Bind` knows a property. */
  function PropertyName(p: Property): string {
    match p
    case Center => "Center"
    case Height => "Height"
    case Radius => "Radius"
    case Radius1 => "Radius1"
    case Radius2 => "Radius2"
    case Diameter => "Diameter"
    case Diameter1 => "Diameter1"
    case Diameter2 => "Diameter2"
    case Resolution => "Resolution"
    case MinimumAngle => "MinimumAngle"
    case MinimumCircumferentialLength => "MinimumCircumferentialLength"
  }

  /** The property a name denotes, if any. */
  function ParseProperty(name: string): (r: Option<Property>)
    ensures r.Some? ==> PropertyName(r.value) == name
  {
    if name == "Center" then Some(Center)
    else if name == "Height" then Some(Height)
    else if name == "Radius" then Some(Radius)
    else if name == "Radius1" then Some(Radius1)
    else if name == "Radius2" then Some(Radius2)
    else if name == "Diameter" then Some(Diameter)
    else if name == "Diameter1" then Some(Diameter1)
    else if name == "Diameter2" then Some(Diameter2)
    else if name == "Resolution" then Some(Resolution)
    else if name == "MinimumAngle" then Some(MinimumAngle)
    else if name == "MinimumCircumferentialLength" then Some(MinimumCircumferentialLength)
    else None
  }

  /** Every property is found again under its own name. */
  lemma ParsePropertyName(p: Property)
    ensures ParseProperty(PropertyName(p)) == Some(p)
  {
  }

  /** The key under which a property appears in the statement text. */
  function KeyOf(p: Property): string {
    match p
    case Center => "center"
    case Height => "h"
    case Radius => "r"
    case Radius1 => "r1"
    case Radius2 => "r2"
    case Diameter => "d"
    case Diameter1 => "d1"
    case Diameter2 => "d2"
    case Resolution => "$fn"
    case MinimumAngle => "$fa"
    case MinimumCircumferentialLength => "$fs"
  }

  /** Only the resolution settings have keys with a '$'. */
  lemma KeyMarksSettings(p: Property)
    ensures '$' in KeyOf(p) <==> IsSetting(p)
  {
  }

  /** The properties a binding of `p` displaces: the other ways of giving the same
      radius. Radius and Diameter describe both ends at once, so they displace
      each other and every end-specific property; an end-specific radius and
      diameter displace each other and the whole-cylinder pair. */
  function Rivals(p: Property): set<Property> {
    match p
    case Radius => {Diameter, Radius1, Radius2, Diameter1, Diameter2}
    case Diameter => {Radius, Radius1, Radius2, Diameter1, Diameter2}
    case Radius1 => {Diameter1, Radius, Diameter}
    case Diameter1 => {Radius1, Radius, Diameter}
    case Radius2 => {Diameter2, Radius, Diameter}
    case Diameter2 => {Radius2, Radius, Diameter}
    case _ => {}
  }

  /** Rivalry is mutual and irreflexive. */
  lemma RivalsSymmetric(p: Property, q: Property)
    ensures q in Rivals(p) <==> p in Rivals(q)
    ensures p !in Rivals(p)
  {
  }

  /** At most one representation of each radius is bound at a time. */
  predicate Exclusive(bindings: map<Property, Expr>) {
    forall p, q :: p in bindings && q in bindings ==> q !in Rivals(p)
  }

  /** The binding registry after binding `p` to `v`: `p` holds `v`, its rivals
      are gone, every other binding is kept, and exclusivity is preserved. */
  function BindMap(bindings: map<Property, Expr>, p: Property, v: Expr): (r: map<Property, Expr>)
    ensures p in r && r[p] == v
    ensures forall q :: q in Rivals(p) ==> q !in r
    ensures forall q :: q != p && q !in Rivals(p) ==> (q in r <==> q in bindings)
    ensures forall q :: q != p && q in r ==> r[q] == bindings[q]
  {
    (bindings - Rivals(p))[p := v]
  }

  /** Binding keeps the registry exclusive. */
  lemma BindKeepsExclusive(bindings: map<Property, Expr>, p: Property, v: Expr)
    requires Exclusive(bindings)
    ensures Exclusive(BindMap(bindings, p, v))
  {
    var r := BindMap(bindings, p, v);
    forall q, q' | q in r && q' in r
      ensures q' !in Rivals(q)
    {
      RivalsSymmetric(p, q);
      RivalsSymmetric(p, q');
    }
  }

  /** The state of a cylinder: the literal values its property setters store and
      the variables its properties are bound to. Resolution, minimum angle and
      minimum circumferential length are optional and absent until set. */
  datatype CylinderState = CylinderState(
    radius1: real,
    radius2: real,
    height: real,
    center: bool,
    resolution: Option<real>,
    minimumAngle: Option<real>,
    minimumCircumferentialLength: Option<real>,
    bindings: map<Property, Expr>)

  /** A cylinder made without arguments. */
  const DefaultCylinder := CylinderState(1.0, 1.0, 1.0, false, None, None, None, map[])

  /** A cylinder made from a diameter, a height and a centring flag: both ends
      get half the diameter as radius. */
  function DiameterCylinder(diameter: real, height: real, center: bool): CylinderState {
    CylinderState(diameter / 2.0, diameter / 2.0, height, center, None, None, None, map[])
  }

  /** Whether a variable fits a property: Center takes a boolean variable, every
      other property a numeric expression. */
  predicate Fits(p: Property, v: Expr) {
    if p == Center then v.Variable? && v.value.Boolean? else Eval(v).Some?
  }

  /** What the property's setter stores for a fitting variable. */
  function Assign(s: CylinderState, p: Property, v: Expr): CylinderState
    requires Fits(p, v)
  {
    if p == Center then s.(center := v.value.b)
    else
      var x := Eval(v).value;
      (match p
       case Height => s.(height := x)
       case Radius => s.(radius1 := x, radius2 := x)
       case Diameter => s.(radius1 := x / 2.0, radius2 := x / 2.0)
       case Radius1 => s.(radius1 := x)
       case Diameter1 => s.(radius1 := x / 2.0)
       case Radius2 => s.(radius2 := x)
       case Diameter2 => s.(radius2 := x / 2.0)
       case Resolution => s.(resolution := Some(x))
       case MinimumAngle => s.(minimumAngle := Some(x))
       case MinimumCircumferentialLength => s.(minimumCircumferentialLength := Some(x)))
  }

  /** Binding `p` to `v`: the registry records `v` (displacing the rivals of `p`)
      and, when `v` fits, the literal value is stored as the setter would. */
  function BindState(s: CylinderState, p: Property, v: Expr): (r: CylinderState)
    ensures r.bindings == BindMap(s.bindings, p, v)
  {
    var stored := if Fits(p, v) then Assign(s, p, v) else s;
    stored.(bindings := BindMap(s.bindings, p, v))
  }

  /** A cylinder made from variables: both diameters and the height, and the
      centring flag when given, are bound in that order. */
  function BoundCylinder(diameter1: Expr, diameter2: Expr, height: Expr, center: Option<Expr>): CylinderState {
    var s := BindState(BindState(BindState(DefaultCylinder, Diameter1, diameter1), Diameter2, diameter2), Height, height);
    if center.Some? then BindState(s, Center, center.value) else s
  }

  /** A cylinder made from variables has an exclusive registry. */
  lemma BoundCylinderExclusive(diameter1: Expr, diameter2: Expr, height: Expr, center: Option<Expr>)
    ensures Exclusive(BoundCylinder(diameter1, diameter2, height, center).bindings)
  {
    var s1 := BindState(DefaultCylinder, Diameter1, diameter1);
    var s2 := BindState(s1, Diameter2, diameter2);
    var s3 := BindState(s2, Height, height);
    BindKeepsExclusive(DefaultCylinder.bindings, Diameter1, diameter1);
    BindKeepsExclusive(s1.bindings, Diameter2, diameter2);
    BindKeepsExclusive(s2.bindings, Height, height);
    if center.Some? {
      BindKeepsExclusive(s3.bindings, Center, center.value);
    }
  }

  /** The properties whose setters store a literal. */
  predicate IsSetting(p: Property) {
    p == Resolution || p == MinimumAngle || p == MinimumCircumferentialLength
  }

  /** Setting resolution, minimum angle or minimum circumferential length stores
      the value and drops any binding of that property. */
  function SetSetting(s: CylinderState, p: Property, x: real): (r: CylinderState)
    requires IsSetting(p)
    ensures r.bindings == s.bindings - {p}
    ensures Exclusive(s.bindings) ==> Exclusive(r.bindings)
  {
    var b := s.bindings - {p};
    match p
    case Resolution => s.(resolution := Some(x), bindings := b)
    case MinimumAngle => s.(minimumAngle := Some(x), bindings := b)
    case MinimumCircumferentialLength => s.(minimumCircumferentialLength := Some(x), bindings := b)
  }

  // Accessors.

  /** What a property accessor returns. */
  datatype Reading = Amount(x: real) | Flag(b: bool) | Unset

  /** The bindings a property's reading rests on. */
  function Relevant(p: Property): set<Property> {
    match p
    case Radius => {Radius, Diameter, Radius1, Diameter1}
    case Radius1 => {Radius, Diameter, Radius1, Diameter1}
    case Diameter => {Radius, Diameter, Radius1, Diameter1}
    case Diameter1 => {Radius, Diameter, Radius1, Diameter1}
    case Radius2 => {Radius, Diameter, Radius2, Diameter2}
    case Diameter2 => {Radius, Diameter, Radius2, Diameter2}
    case _ => {p}
  }

  /** Some binding the reading of `p` rests on holds a variable that does not fit. */
  predicate Mismatched(s: CylinderState, p: Property) {
    exists q | q in Relevant(p) :: q in s.bindings && !Fits(q, s.bindings[q])
  }

  /** The reading from the literal values: Radius is the first end's radius and
      every diameter twice the matching radius. */
  function LiteralReading(s: CylinderState, p: Property): Reading {
    match p
    case Center => Flag(s.center)
    case Height => Amount(s.height)
    case Radius => Amount(s.radius1)
    case Radius1 => Amount(s.radius1)
    case Radius2 => Amount(s.radius2)
    case Diameter => Amount(2.0 * s.radius1)
    case Diameter1 => Amount(2.0 * s.radius1)
    case Diameter2 => Amount(2.0 * s.radius2)
    case Resolution => if s.resolution.Some? then Amount(s.resolution.value) else Unset
    case MinimumAngle => if s.minimumAngle.Some? then Amount(s.minimumAngle.value) else Unset
    case MinimumCircumferentialLength =>
      if s.minimumCircumferentialLength.Some? then Amount(s.minimumCircumferentialLength.value) else Unset
  }

  /** The accessor of `p`: a type mismatch when a binding it rests on does not
      fit, otherwise the stored value. */
  function Read(s: CylinderState, p: Property): (r: Result<Reading>)
    ensures s.bindings == map[] ==> r.Ok?
    ensures r.Err? ==> r.error == TypeMismatch(PropertyName(p))
  {
    if Mismatched(s, p) then Err(TypeMismatch(PropertyName(p))) else Ok(LiteralReading(s, p))
  }

  /** What the accessor of `p` returns once `v` is bound to it. */
  function ReadingOf(p: Property, v: Expr): Result<Reading> {
    if !Fits(p, v) then Err(TypeMismatch(PropertyName(p)))
    else if p == Center then Ok(Flag(v.value.b))
    else Ok(Amount(Eval(v).value))
  }

  /** After `Bind(p, v)` the accessor of `p` returns the value of `v`, or a type
      mismatch when `v` does not fit. */
  lemma ReadAfterBind(s: CylinderState, p: Property, v: Expr)
    ensures Read(BindState(s, p, v), p) == ReadingOf(p, v)
  {
    BindMismatch(s, p, v);
    if Fits(p, v) {
      AssignReads(s, p, v);
    }
  }

  /** After `Bind(p, v)` the reading of `p` is a mismatch exactly when `v` does
      not fit: the rivals of `p` it might rest on are gone. */
  lemma BindMismatch(s: CylinderState, p: Property, v: Expr)
    ensures Mismatched(BindState(s, p, v), p) <==> !Fits(p, v)
  {
    var t := BindState(s, p, v);
    forall q | q in Relevant(p) && q != p
      ensures q !in t.bindings
    {
      assert q in Rivals(p);
    }
    if !Fits(p, v) {
      assert p in Relevant(p) && p in t.bindings && !Fits(p, t.bindings[p]);
    }
  }

  /** The setter of `p` stores the value of a fitting variable where the
      literal reading of `p` finds it. */
  lemma AssignReads(s: CylinderState, p: Property, v: Expr)
    requires Fits(p, v)
    ensures LiteralReading(Assign(s, p, v), p) == if p == Center then Flag(v.value.b) else Amount(Eval(v).value)
  {
  }

  /** A binding of `p` leaves unchanged the accessor of every property `q` whose
      reading does not rest on `p`, provided it displaces no binding that the
      reading of `q` rests on. */
  lemma ReadUnaffected(s: CylinderState, p: Property, v: Expr, q: Property)
    requires p !in Relevant(q)
    requires forall r :: r in Relevant(q) && r in Rivals(p) ==> r !in s.bindings
    ensures Read(BindState(s, p, v), q) == Read(s, q)
  {
    var t := BindState(s, p, v);
    forall r | r in Relevant(q)
      ensures (r in t.bindings <==> r in s.bindings) && (r in t.bindings ==> t.bindings[r] == s.bindings[r])
    {
    }
    MismatchRestsOnRelevant(s, t, q);
    BindKeepsReading(s, p, v, q);
  }

  /** A later binding of `q` leaves the accessor of an earlier-bound `p` as the
      first binding made it, when `q` neither feeds the reading of `p` nor
      displaces anything it rests on besides what `p` displaced already. */
  lemma ReadAfterLaterBind(s: CylinderState, p: Property, v: Expr, q: Property, w: Expr)
    requires q !in Relevant(p)
    requires forall r :: r in Relevant(p) && r in Rivals(q) ==> r in Rivals(p)
    ensures Read(BindState(BindState(s, p, v), q, w), p) == ReadingOf(p, v)
  {
    ReadAfterBind(s, p, v);
    ReadUnaffected(BindState(s, p, v), q, w, p);
  }

  /** Whether the reading of `q` is a mismatch depends only on the bindings it rests on. */
  lemma MismatchRestsOnRelevant(s: CylinderState, t: CylinderState, q: Property)
    requires forall r :: r in Relevant(q) ==>
      (r in t.bindings <==> r in s.bindings) && (r in t.bindings ==> t.bindings[r] == s.bindings[r])
    ensures Mismatched(t, q) == Mismatched(s, q)
  {
    if Mismatched(t, q) {
      var r :| r in Relevant(q) && r in t.bindings && !Fits(r, t.bindings[r]);
      assert r in s.bindings && !Fits(r, s.bindings[r]);
    }
    if Mismatched(s, q) {
      var r :| r in Relevant(q) && r in s.bindings && !Fits(r, s.bindings[r]);
      assert r in t.bindings && !Fits(r, t.bindings[r]);
    }
  }

  /** A binding of `p` leaves the literal reading of every property whose
      reading does not rest on `p` unchanged. */
  lemma BindKeepsReading(s: CylinderState, p: Property, v: Expr, q: Property)
    requires p !in Relevant(q)
    ensures LiteralReading(BindState(s, p, v), q) == LiteralReading(s, q)
  {
    var bindings := BindMap(s.bindings, p, v);
    if Fits(p, v) {
      AssignKeepsReading(s, p, v, q);
      ReadingIgnoresBindings(Assign(s, p, v), bindings, q);
    } else {
      ReadingIgnoresBindings(s, bindings, q);
    }
  }

  /** The literal reading does not look at the bindings. */
  lemma ReadingIgnoresBindings(s: CylinderState, bindings: map<Property, Expr>, q: Property)
    ensures LiteralReading(s.(bindings := bindings), q) == LiteralReading(s, q)
  {
  }

  /** The setter of `p` leaves the literal reading of every property whose
      reading does not rest on `p` unchanged. */
  lemma AssignKeepsReading(s: CylinderState, p: Property, v: Expr, q: Property)
    requires Fits(p, v) && p !in Relevant(q)
    ensures LiteralReading(Assign(s, p, v), q) == LiteralReading(s, q)
  {
  }

  /** The numeric accessor of `p`. */
  function AmountOf(s: CylinderState, p: Property): Result<real> {
    match Read(s, p)
    case Ok(Amount(x)) => Ok(x)
    case Ok(_) => Err(TypeMismatch(PropertyName(p)))
    case Err(e) => Err(e)
  }

  /** The boolean accessor of `p`. */
  function FlagOf(s: CylinderState, p: Property): Result<bool> {
    match Read(s, p)
    case Ok(Flag(b)) => Ok(b)
    case Ok(_) => Err(TypeMismatch(PropertyName(p)))
    case Err(e) => Err(e)
  }

  // Geometry.

  /** A centred cylinder sits at the origin; an uncentred one stands on the
      ground plane with its anchor half its height up. */
  function CylinderPosition(s: CylinderState): (r: Result<Vector3>)
    ensures r.Ok? <==> FlagOf(s, Center).Ok? && AmountOf(s, Height).Ok?
    ensures r.Ok? ==> r.value.x == 0.0 && r.value.y == 0.0
  {
    var center :- FlagOf(s, Center);
    var height :- AmountOf(s, Height);
    Ok(if center then Origin else Vector3(0.0, 0.0, height / 2.0))
  }

  function Max(a: real, b: real): real {
    if a < b then b else a
  }

  /** The box around the cylinder: the larger end radius in x and y, the height
      in z, from the ground plane up or centred on it. */
  function CylinderBounds(s: CylinderState): (r: Result<Bounds>)
    ensures r.Ok? ==> r.value.bottomLeft.x == -r.value.topRight.x && r.value.bottomLeft.y == -r.value.topRight.y
    ensures r.Ok? ==> AmountOf(s, Height).Ok?
                      && r.value.topRight.z - r.value.bottomLeft.z == AmountOf(s, Height).value
  {
    var r1 :- AmountOf(s, Radius1);
    var r2 :- AmountOf(s, Radius2);
    var height :- AmountOf(s, Height);
    var center :- FlagOf(s, Center);
    var r := Max(r1, r2);
    var bottom := if center then -height / 2.0 else 0.0;
    var top := if center then height / 2.0 else height;
    Ok(Bounds(Vector3(-r, -r, bottom), Vector3(r, r, top)))
  }

  /** The position of a cylinder is the centre of its box. */
  lemma CylinderPositionIsCentre(s: CylinderState)
    requires CylinderPosition(s).Ok? && CylinderBounds(s).Ok?
    ensures CylinderPosition(s).value == Centre(CylinderBounds(s).value)
  {
  }

  /** A cylinder with non-negative radii and height has an ordered box. */
  lemma CylinderBoundsOrdered(s: CylinderState)
    requires CylinderBounds(s).Ok?
    requires AmountOf(s, Radius1).value >= 0.0 && AmountOf(s, Height).value >= 0.0
    ensures Ordered(CylinderBounds(s).value)
  {
  }

  /** A cylinder made from diameter d and height h: radius d/2 at both ends,
      anchored at the origin when centred and at (0, 0, h/2) otherwise, and boxed
      by (-d/2, -d/2, 0)..(d/2, d/2, h) or (-d/2, -d/2, -h/2)..(d/2, d/2, h/2). */
  lemma DiameterCylinderGeometry(d: real, h: real, center: bool)
    ensures var s := DiameterCylinder(d, h, center);
      && AmountOf(s, Radius1) == AmountOf(s, Radius2) == Ok(d / 2.0)
      && AmountOf(s, Diameter) == Ok(d)
      && CylinderPosition(s) == Ok(if center then Origin else Vector3(0.0, 0.0, h / 2.0))
      && CylinderBounds(s) == Ok(if center
                                 then Bounds(Vector3(-d / 2.0, -d / 2.0, -h / 2.0), Vector3(d / 2.0, d / 2.0, h / 2.0))
                                 else Bounds(Vector3(-d / 2.0, -d / 2.0, 0.0), Vector3(d / 2.0, d / 2.0, h)))
  {
    var s := DiameterCylinder(d, h, center);
    assert !Mismatched(s, Radius1) && !Mismatched(s, Radius2) && !Mismatched(s, Height);
    assert !Mismatched(s, Center) && !Mismatched(s, Diameter);
  }

  // Statement text.

  /** One header field of the statement, named by the property it shows. */
  datatype Entry = Entry(property: Property, arg: Argument)

  function EntryField(e: Entry): Field {
    Field(KeyOf(e.property), ArgumentText(e.arg))
  }

  /** The properties shown, in emission order. */
  function Shown(entries: seq<Entry>): (ps: seq<Property>)
    ensures |ps| == |entries|
    ensures forall k :: 0 <= k < |entries| ==> ps[k] == entries[k].property
  {
    seq(|entries|, k requires 0 <= k < |entries| => entries[k].property)
  }

  function EntryFields(entries: seq<Entry>): (fields: seq<Field>)
    ensures |fields| == |entries|
    ensures forall k :: 0 <= k < |entries| ==> fields[k] == EntryField(entries[k])
  {
    seq(|entries|, k requires 0 <= k < |entries| => EntryField(entries[k]))
  }

  /** A property's argument: the bound variable, or else the given literal. */
  function ArgOf(s: CylinderState, p: Property, literal: Argument): Argument {
    if p in s.bindings then ExprArg(s.bindings[p]) else literal
  }

  /** The entry for one end: the bound diameter, else the radius (bound or literal). */
  function EndEntry(s: CylinderState, radius: Property, diameter: Property, literal: real): Entry {
    if diameter in s.bindings then Entry(diameter, ExprArg(s.bindings[diameter]))
    else Entry(radius, ArgOf(s, radius, NumberArg(literal)))
  }

  /** The radius entries: a bound Radius or Diameter alone, or else one entry per end. */
  function RadiusEntries(s: CylinderState): seq<Entry> {
    if Radius in s.bindings then [Entry(Radius, ExprArg(s.bindings[Radius]))]
    else if Diameter in s.bindings then [Entry(Diameter, ExprArg(s.bindings[Diameter]))]
    else [EndEntry(s, Radius1, Diameter1, s.radius1), EndEntry(s, Radius2, Diameter2, s.radius2)]
  }

  /** A resolution entry, present only when the property is bound or set. */
  function SettingEntry(s: CylinderState, p: Property, value: Option<real>): seq<Entry> {
    if p in s.bindings then [Entry(p, ExprArg(s.bindings[p]))]
    else if value.Some? then [Entry(p, NumberArg(value.value))]
    else []
  }

  /** The entries that precede the resolution settings: center, the radii, h. */
  function ShapeEntries(s: CylinderState): seq<Entry> {
    [Entry(Center, ArgOf(s, Center, FlagArg(s.center)))]
    + RadiusEntries(s)
    + [Entry(Height, ArgOf(s, Height, NumberArg(s.height)))]
  }

  /** The resolution settings that are present: $fn, $fa, $fs in that order. */
  function SettingEntries(s: CylinderState): seq<Entry> {
    SettingEntry(s, Resolution, s.resolution)
    + SettingEntry(s, MinimumAngle, s.minimumAngle)
    + SettingEntry(s, MinimumCircumferentialLength, s.minimumCircumferentialLength)
  }

  /** The header entries in emission order: center, the radius entries, h, then
      $fn, $fa and $fs when present. */
  function CylinderEntries(s: CylinderState): seq<Entry> {
    ShapeEntries(s) + SettingEntries(s)
  }

  /** The cylinder's leaf statement. */
  function CylinderScript(s: CylinderState): string {
    Leaf(Header("cylinder", EntryFields(CylinderEntries(s))))
  }

  /** Every cylinder's statement opens with `cylinder(` and closes with `);`. */
  lemma CylinderScriptShape(s: CylinderState)
    ensures StartsWith(CylinderScript(s), "cylinder(")
    ensures EndsWith(CylinderScript(s), ");")
  {
    LeafShape("cylinder", EntryFields(CylinderEntries(s)));
  }

  /** Every entry appears in the statement as `key = text`. */
  lemma ScriptShowsEntry(s: CylinderState, e: Entry)
    requires e in CylinderEntries(s)
    ensures Contains(CylinderScript(s), KeyOf(e.property) + " = " + ArgumentText(e.arg))
  {
    var entries := CylinderEntries(s);
    var k :| 0 <= k < |entries| && entries[k] == e;
    LeafShowsField("cylinder", EntryFields(entries), EntryField(e));
  }

  lemma ShownConcat(a: seq<Entry>, b: seq<Entry>)
    ensures Shown(a + b) == Shown(a) + Shown(b)
  {
    assert |Shown(a + b)| == |Shown(a) + Shown(b)|;
    forall k | 0 <= k < |a + b|
      ensures Shown(a + b)[k] == (Shown(a) + Shown(b))[k]
    {
      if k < |a| {
      } else {
        assert (a + b)[k] == b[k - |a|];
      }
    }
  }

  /** The properties named by the radius entries. */
  function RadiusProperties(b: map<Property, Expr>): seq<Property> {
    if Radius in b then [Radius]
    else if Diameter in b then [Diameter]
    else [if Diameter1 in b then Diameter1 else Radius1, if Diameter2 in b then Diameter2 else Radius2]
  }

  lemma ShownRadius(s: CylinderState)
    ensures Shown(RadiusEntries(s)) == RadiusProperties(s.bindings)
  {
  }

  /** The properties named by the setting entries: the settings set or bound. */
  function SettingProperties(s: CylinderState): seq<Property> {
    (if Resolution in s.bindings || s.resolution.Some? then [Resolution] else [])
    + (if MinimumAngle in s.bindings || s.minimumAngle.Some? then [MinimumAngle] else [])
    + (if MinimumCircumferentialLength in s.bindings || s.minimumCircumferentialLength.Some?
       then [MinimumCircumferentialLength] else [])
  }

  lemma ShownSettings(s: CylinderState)
    ensures Shown(SettingEntries(s)) == SettingProperties(s)
  {
    var fn := SettingEntry(s, Resolution, s.resolution);
    var fa := SettingEntry(s, MinimumAngle, s.minimumAngle);
    var fs := SettingEntry(s, MinimumCircumferentialLength, s.minimumCircumferentialLength);
    ShownConcat(fn, fa);
    ShownConcat(fn + fa, fs);
  }

  /** The shown properties: center, the radius properties, h, then the settings. */
  lemma ShownProperties(s: CylinderState)
    ensures Shown(CylinderEntries(s))
         == [Center] + RadiusProperties(s.bindings) + [Height] + SettingProperties(s)
  {
    var c := [Entry(Center, ArgOf(s, Center, FlagArg(s.center)))];
    var h := [Entry(Height, ArgOf(s, Height, NumberArg(s.height)))];
    ShownConcat(c, RadiusEntries(s));
    ShownConcat(c + RadiusEntries(s), h);
    ShownConcat(ShapeEntries(s), SettingEntries(s));
    ShownRadius(s);
    ShownSettings(s);
  }

  /** Which radius properties are shown for which bindings: a bound Radius, else
      a bound Diameter, else per end the bound diameter or the radius. */
  lemma RadiusPropertiesCases(b: map<Property, Expr>)
    ensures var shown := RadiusProperties(b);
      && (Radius in shown <==> Radius in b)
      && (Diameter in shown <==> Radius !in b && Diameter in b)
      && (Diameter1 in shown <==> Radius !in b && Diameter !in b && Diameter1 in b)
      && (Radius1 in shown <==> Radius !in b && Diameter !in b && Diameter1 !in b)
      && (Diameter2 in shown <==> Radius !in b && Diameter !in b && Diameter2 in b)
      && (Radius2 in shown <==> Radius !in b && Diameter !in b && Diameter2 !in b)
  {
  }

  /** A radius-family property is shown exactly when the radius entries name it. */
  lemma RadiusFamilyShown(s: CylinderState, q: Property)
    requires !IsSetting(q) && q != Center && q != Height
    ensures q in Shown(CylinderEntries(s)) <==> q in RadiusProperties(s.bindings)
  {
    ShownProperties(s);
  }

  /** Which radius entries appear for which bindings. */
  lemma RadiusShown(s: CylinderState)
    ensures var shown := Shown(CylinderEntries(s));
      && (Radius in shown <==> Radius in s.bindings)
      && (Diameter in shown <==> Radius !in s.bindings && Diameter in s.bindings)
      && (Diameter1 in shown <==> Radius !in s.bindings && Diameter !in s.bindings && Diameter1 in s.bindings)
      && (Radius1 in shown <==> Radius !in s.bindings && Diameter !in s.bindings && Diameter1 !in s.bindings)
      && (Diameter2 in shown <==> Radius !in s.bindings && Diameter !in s.bindings && Diameter2 in s.bindings)
      && (Radius2 in shown <==> Radius !in s.bindings && Diameter !in s.bindings && Diameter2 !in s.bindings)
  {
    RadiusPropertiesCases(s.bindings);
    RadiusFamilyShown(s, Radius);
    RadiusFamilyShown(s, Diameter);
    RadiusFamilyShown(s, Radius1);
    RadiusFamilyShown(s, Diameter1);
    RadiusFamilyShown(s, Radius2);
    RadiusFamilyShown(s, Diameter2);
  }

  /** Each radius is shown exactly once: either one whole-cylinder entry (r or d)
      or one entry per end (r1 or d1, and r2 or d2), never both forms of one. */
  lemma OneRepresentationPerRadius(s: CylinderState)
    ensures var shown := Shown(CylinderEntries(s));
      && !(Radius in shown && Diameter in shown)
      && !(Radius1 in shown && Diameter1 in shown)
      && !(Radius2 in shown && Diameter2 in shown)
      && ((Radius in shown || Diameter in shown) <==> !(Radius1 in shown || Diameter1 in shown))
      && ((Radius in shown || Diameter in shown) <==> !(Radius2 in shown || Diameter2 in shown))
  {
    RadiusShown(s);
  }

  /** After `Bind(p, v)` the statement has an entry showing `v` for `p`. */
  lemma BindShowsEntry(s: CylinderState, p: Property, v: Expr)
    ensures Entry(p, ExprArg(v)) in CylinderEntries(BindState(s, p, v))
  {
    var t := BindState(s, p, v);
    var e := Entry(p, ExprArg(v));
    if IsSetting(p) {
      assert e in SettingEntries(t);
    } else {
      assert e in ShapeEntries(t);
    }
  }

  /** After `Bind(p, v)` no rival of `p` is shown: the last binding of a radius wins. */
  lemma BindHidesRivals(s: CylinderState, p: Property, v: Expr)
    ensures forall q :: q in Rivals(p) ==> q !in Shown(CylinderEntries(BindState(s, p, v)))
  {
    RadiusShown(BindState(s, p, v));
  }

  /** After `Bind(p, v)` the statement text shows `key = <text of v>` for `p`. */
  lemma BindShowsText(s: CylinderState, p: Property, v: Expr)
    ensures Contains(CylinderScript(BindState(s, p, v)), KeyOf(p) + " = " + Render(v))
  {
    BindShowsEntry(s, p, v);
    ScriptShowsEntry(BindState(s, p, v), Entry(p, ExprArg(v)));
  }

  /** Under an exclusive registry every bound property is shown with its
      variable: no binding is hidden by another. */
  lemma BoundEntryShown(s: CylinderState, q: Property)
    requires Exclusive(s.bindings) && q in s.bindings
    ensures Entry(q, ExprArg(s.bindings[q])) in CylinderEntries(s)
  {
    var e := Entry(q, ExprArg(s.bindings[q]));
    forall r | r in Rivals(q)
      ensures r !in s.bindings
    {
    }
    if IsSetting(q) {
      assert e in SettingEntry(s, q, if q == Resolution then s.resolution
                                     else if q == MinimumAngle then s.minimumAngle
                                     else s.minimumCircumferentialLength);
      assert e in SettingEntries(s);
    } else if q == Center || q == Height {
      assert e in ShapeEntries(s);
    } else {
      assert e in RadiusEntries(s);
      assert e in ShapeEntries(s);
    }
  }

  /** Under an exclusive registry the statement shows `key = <text>` for every
      binding. */
  lemma BoundTextShown(s: CylinderState, q: Property)
    requires Exclusive(s.bindings) && q in s.bindings
    ensures Contains(CylinderScript(s), KeyOf(q) + " = " + Render(s.bindings[q]))
  {
    BoundEntryShown(s, q);
    ScriptShowsEntry(s, Entry(q, ExprArg(s.bindings[q])));
  }

  /** $fn, $fa and $fs are each present exactly when their property is set or bound. */
  lemma SettingsShownIffSet(s: CylinderState)
    ensures var shown := Shown(CylinderEntries(s));
      && (Resolution in shown <==> s.resolution.Some? || Resolution in s.bindings)
      && (MinimumAngle in shown <==> s.minimumAngle.Some? || MinimumAngle in s.bindings)
      && (MinimumCircumferentialLength in shown
          <==> s.minimumCircumferentialLength.Some? || MinimumCircumferentialLength in s.bindings)
  {
    SettingFamilyShown(s, Resolution);
    SettingFamilyShown(s, MinimumAngle);
    SettingFamilyShown(s, MinimumCircumferentialLength);
  }

  /** The key of every shown property appears in the statement text. */
  lemma ShownKeyAppears(s: CylinderState, p: Property)
    requires p in Shown(CylinderEntries(s))
    ensures Contains(CylinderScript(s), KeyOf(p))
  {
    EntryKeyAppears(CylinderEntries(s), p);
  }

  /** In a cylinder statement over any entries, the key of each shown property
      appears. */
  lemma EntryKeyAppears(entries: seq<Entry>, p: Property)
    requires p in Shown(entries)
    ensures Contains(Leaf(Header("cylinder", EntryFields(entries))), KeyOf(p))
  {
    var k :| 0 <= k < |entries| && Shown(entries)[k] == p;
    var f := EntryFields(entries)[k];
    LeafShowsField("cylinder", EntryFields(entries), f);
    var t := f.key + " = " + f.text;
    assert t[..|KeyOf(p)|] == KeyOf(p);
    ContainsPrefix(t, KeyOf(p));
    ContainsTransitive(Leaf(Header("cylinder", EntryFields(entries))), t, KeyOf(p));
  }

  /** A cylinder with resolution, minimum angle and minimum circumferential
      length all set shows `$fn`, `$fa` and `$fs`. */
  lemma SetSettingsAppear(s: CylinderState)
    requires s.resolution.Some? && s.minimumAngle.Some? && s.minimumCircumferentialLength.Some?
    ensures Contains(CylinderScript(s), "$fn")
    ensures Contains(CylinderScript(s), "$fa")
    ensures Contains(CylinderScript(s), "$fs")
  {
    AllSettingsListed(s);
    SettingKeyAppears(s, Resolution, "$fn");
    SettingKeyAppears(s, MinimumAngle, "$fa");
    SettingKeyAppears(s, MinimumCircumferentialLength, "$fs");
  }

  /** With every setting set, all three settings are listed, in order. */
  lemma AllSettingsListed(s: CylinderState)
    requires s.resolution.Some? && s.minimumAngle.Some? && s.minimumCircumferentialLength.Some?
    ensures SettingProperties(s) == [Resolution, MinimumAngle, MinimumCircumferentialLength]
  {
  }

  /** The key of a setting that is set or bound appears in the statement. */
  lemma SettingKeyAppears(s: CylinderState, p: Property, key: string)
    requires IsSetting(p) && key == KeyOf(p)
    requires p in SettingProperties(s)
    ensures Contains(CylinderScript(s), key)
  {
    SettingFamilyShown(s, p);
    ShownKeyAppears(s, p);
  }

  /** A setting is shown exactly when the setting entries name it. */
  lemma SettingFamilyShown(s: CylinderState, q: Property)
    requires IsSetting(q)
    ensures q in Shown(CylinderEntries(s)) <==> q in SettingProperties(s)
  {
    ShownProperties(s);
    assert q !in RadiusProperties(s.bindings);
  }

  /** Without resolution settings and with no '$' in any bound variable's name,
      the statement contains no `$fn`, `$fa` or `$fs` at all. */
  lemma UnsetSettingsAbsent(s: CylinderState)
    requires s.resolution.None? && s.minimumAngle.None? && s.minimumCircumferentialLength.None?
    requires Resolution !in s.bindings && MinimumAngle !in s.bindings && MinimumCircumferentialLength !in s.bindings
    requires forall p :: p in s.bindings ==> NamesAvoid(s.bindings[p], '$')
    ensures !Contains(CylinderScript(s), "$fn")
    ensures !Contains(CylinderScript(s), "$fa")
    ensures !Contains(CylinderScript(s), "$fs")
  {
    ScriptAvoidsDollar(s);
    AbsentCharacter(CylinderScript(s), "$fn", '$');
    AbsentCharacter(CylinderScript(s), "$fa", '$');
    AbsentCharacter(CylinderScript(s), "$fs", '$');
  }

  /** Without resolution settings, and with no '$' in a bound variable's name,
      no '$' appears in the statement. */
  lemma ScriptAvoidsDollar(s: CylinderState)
    requires s.resolution.None? && s.minimumAngle.None? && s.minimumCircumferentialLength.None?
    requires Resolution !in s.bindings && MinimumAngle !in s.bindings && MinimumCircumferentialLength !in s.bindings
    requires forall p :: p in s.bindings ==> NamesAvoid(s.bindings[p], '$')
    ensures '$' !in CylinderScript(s)
  {
    ScriptAvoids(s, '$');
  }

  /** Without resolution settings, a character that is in no shape key, no part
      of the statement's syntax, no number, operator or literal centring flag,
      and no bound variable's name, is absent from the statement. */
  lemma ScriptAvoids(s: CylinderState, c: char)
    requires s.resolution.None? && s.minimumAngle.None? && s.minimumCircumferentialLength.None?
    requires Resolution !in s.bindings && MinimumAngle !in s.bindings && MinimumCircumferentialLength !in s.bindings
    requires forall p :: p in s.bindings ==> NamesAvoid(s.bindings[p], c)
    requires !IsNumeralChar(c) && c !in " +-*/" && c !in BoolText(s.center)
    requires c !in "cylinder" && c !in "(); =," && c !in "centrhd"
    ensures c !in CylinderScript(s)
  {
    NoSettingEntries(s);
    ShapeEntriesAvoid(s, c);
    FieldsAvoid(ShapeEntries(s), c);
    LeafAvoids("cylinder", EntryFields(ShapeEntries(s)), c);
  }

  /** Without settings set or bound, the entries are the shape entries alone. */
  lemma NoSettingEntries(s: CylinderState)
    requires s.resolution.None? && s.minimumAngle.None? && s.minimumCircumferentialLength.None?
    requires Resolution !in s.bindings && MinimumAngle !in s.bindings && MinimumCircumferentialLength !in s.bindings
    ensures CylinderEntries(s) == ShapeEntries(s)
  {
    assert SettingEntries(s) == [];
  }

  /** Binding a shape property over bindings that are all its rivals leaves it
      the only binding; then a character absent from its variable's names, and
      from the rest as `ScriptAvoids` asks, is absent from the statement. */
  lemma LoneBindingAvoids(s: CylinderState, p: Property, v: Expr, c: char)
    requires s.resolution.None? && s.minimumAngle.None? && s.minimumCircumferentialLength.None?
    requires !IsSetting(p) && p != Center
    requires forall q :: q in s.bindings ==> q in Rivals(p)
    requires NamesAvoid(v, c)
    requires !IsNumeralChar(c) && c !in " +-*/" && c !in BoolText(s.center)
    requires c !in "cylinder" && c !in "(); =," && c !in "centrhd"
    ensures c !in CylinderScript(BindState(s, p, v))
  {
    var t := BindState(s, p, v);
    BindKeepsOthers(s, p, v);
    assert forall q :: q in t.bindings ==> q == p;
    ScriptAvoids(t, c);
  }

  /** Entries that are no settings and whose texts avoid a character that no
      shape key uses give fields that avoid it. */
  lemma FieldsAvoid(entries: seq<Entry>, c: char)
    requires forall e :: e in entries ==> c !in ArgumentText(e.arg) && !IsSetting(e.property)
    requires !IsNumeralChar(c) && c !in "centrhd"
    ensures var fields := EntryFields(entries);
      forall k :: 0 <= k < |fields| ==> c !in fields[k].key && c !in fields[k].text
  {
    var fields := EntryFields(entries);
    forall k | 0 <= k < |fields|
      ensures c !in fields[k].key && c !in fields[k].text
    {
      assert entries[k] in entries;
      ShapeKeyAvoids(entries[k].property, c);
    }
  }

  /** A character that is no digit and not in `centrhd` is in no shape key. */
  lemma ShapeKeyAvoids(p: Property, c: char)
    requires !IsSetting(p) && !IsNumeralChar(c) && c !in "centrhd"
    ensures c !in KeyOf(p)
  {
  }

  /** A character that no number, operator, literal centring flag or bound
      variable name uses appears in no text of the shape entries, and no shape
      entry is a setting. */
  lemma ShapeEntriesAvoid(s: CylinderState, c: char)
    requires !IsNumeralChar(c) && c !in " +-*/" && c !in BoolText(s.center)
    requires forall p :: p in s.bindings ==> NamesAvoid(s.bindings[p], c)
    ensures forall e :: e in ShapeEntries(s) ==> c !in ArgumentText(e.arg) && !IsSetting(e.property)
  {
    forall e | e in ShapeEntries(s)
      ensures c !in ArgumentText(e.arg) && !IsSetting(e.property)
    {
      ArgumentAvoids(e.arg, c);
    }
  }

  /** A set resolution, minimum angle or minimum circumferential length is read
      back and shown as its literal value. */
  lemma SetSettingShown(s: CylinderState, p: Property, x: real)
    requires IsSetting(p)
    ensures Read(SetSetting(s, p, x), p) == Ok(Amount(x))
    ensures Entry(p, NumberArg(x)) in CylinderEntries(SetSetting(s, p, x))
  {
    var t := SetSetting(s, p, x);
    assert !Mismatched(t, p);
    assert Entry(p, NumberArg(x)) in SettingEntries(t);
  }

  /** A set setting appears in the statement text as `key = <number>`. */
  lemma SetSettingText(s: CylinderState, p: Property, x: real)
    requires IsSetting(p)
    ensures Contains(CylinderScript(SetSetting(s, p, x)), KeyOf(p) + " = " + NumText(x))
  {
    SetSettingShown(s, p, x);
    ScriptShowsEntry(SetSetting(s, p, x), Entry(p, NumberArg(x)));
  }

  /** A cylinder without bindings or settings shows exactly its literal
      `center`, `r1`, `r2` and `h`, in that order. */
  lemma UnboundEntries(s: CylinderState)
    requires s.bindings == map[]
    requires s.resolution.None? && s.minimumAngle.None? && s.minimumCircumferentialLength.None?
    ensures CylinderEntries(s)
         == [Entry(Center, FlagArg(s.center)), Entry(Radius1, NumberArg(s.radius1)),
             Entry(Radius2, NumberArg(s.radius2)), Entry(Height, NumberArg(s.height))]
  {
    assert SettingEntries(s) == [];
    assert CylinderEntries(s) == ShapeEntries(s) + [];
  }

  /** A cylinder made from a diameter, height and flag shows exactly
      `center`, `r1 = r2 = d/2` and `h`, in that order. */
  lemma DiameterCylinderEntries(d: real, h: real, center: bool)
    ensures CylinderEntries(DiameterCylinder(d, h, center))
         == [Entry(Center, FlagArg(center)), Entry(Radius1, NumberArg(d / 2.0)),
             Entry(Radius2, NumberArg(d / 2.0)), Entry(Height, NumberArg(h))]
  {
    UnboundEntries(DiameterCylinder(d, h, center));
  }

  /** The field texts of an uncentred cylinder bound to two diameters and a height. */
  lemma DiameterBoundTexts(entries: seq<Entry>, d1: Expr, d2: Expr, h: Expr, texts: seq<string>)
    requires texts == FieldTexts(EntryFields(entries))
    requires |entries| == 4 && entries[0] == Entry(Center, FlagArg(false))
    requires entries[1] == Entry(Diameter1, ExprArg(d1)) && entries[2] == Entry(Diameter2, ExprArg(d2))
    requires entries[3] == Entry(Height, ExprArg(h))
    ensures |texts| == 4
    ensures texts[0] == "center = false" && texts[1] == "d1 = " + Render(d1)
    ensures texts[2] == "d2 = " + Render(d2) && texts[3] == "h = " + Render(h)
  {
    UncentredText(entries, texts);
    BoundText(entries, texts, 1, "d1 = ", d1);
    BoundText(entries, texts, 2, "d2 = ", d2);
    BoundText(entries, texts, 3, "h = ", h);
  }

  /** An uncentred first entry reads `center = false`. */
  lemma UncentredText(entries: seq<Entry>, texts: seq<string>)
    requires texts == FieldTexts(EntryFields(entries))
    requires |entries| > 0 && entries[0] == Entry(Center, FlagArg(false))
    ensures texts[0] == "center = false"
  {
    assert "center" + " = " + "false" == "center = false";
  }

  /** A bound `d1`, `d2` or `h` entry reads `key = <variable text>`. */
  lemma BoundText(entries: seq<Entry>, texts: seq<string>, k: nat, prefix: string, v: Expr)
    requires texts == FieldTexts(EntryFields(entries))
    requires k < |entries| && entries[k].arg == ExprArg(v)
    requires entries[k].property in {Diameter1, Diameter2, Height}
    requires prefix == (match entries[k].property case Diameter1 => "d1 = " case Diameter2 => "d2 = " case _ => "h = ")
    ensures texts[k] == prefix + Render(v)
  {
    assert "d1" + " = " == "d1 = " && "d2" + " = " == "d2 = " && "h" + " = " == "h = ";
  }

  /** A cylinder made from a diameter, height and flag shows `center`, both end
      radii as half the diameter, and `h`, each as `key = value`. */
  lemma DiameterCylinderShows(d: real, h: real, center: bool)
    ensures var script := CylinderScript(DiameterCylinder(d, h, center));
      && Contains(script, "center = " + BoolText(center))
      && Contains(script, "r1 = " + NumText(d / 2.0))
      && Contains(script, "r2 = " + NumText(d / 2.0))
      && Contains(script, "h = " + NumText(h))
  {
    DiameterCylinderEntries(d, h, center);
    LiteralEntriesShown(DiameterCylinder(d, h, center), center, d / 2.0, h);
    EndKeyTexts();
    ShapeKeyTexts();
  }

  /** A cylinder whose entries are the centre flag, two end radii and the height
      shows each of them under its key. */
  lemma LiteralEntriesShown(s: CylinderState, center: bool, r: real, h: real)
    requires CylinderEntries(s) == [Entry(Center, FlagArg(center)), Entry(Radius1, NumberArg(r)),
                                    Entry(Radius2, NumberArg(r)), Entry(Height, NumberArg(h))]
    ensures Contains(CylinderScript(s), KeyOf(Center) + " = " + BoolText(center))
    ensures Contains(CylinderScript(s), KeyOf(Radius1) + " = " + NumText(r))
    ensures Contains(CylinderScript(s), KeyOf(Radius2) + " = " + NumText(r))
    ensures Contains(CylinderScript(s), KeyOf(Height) + " = " + NumText(h))
  {
    ScriptShowsEntry(s, Entry(Center, FlagArg(center)));
    ScriptShowsEntry(s, Entry(Radius1, NumberArg(r)));
    ScriptShowsEntry(s, Entry(Radius2, NumberArg(r)));
    ScriptShowsEntry(s, Entry(Height, NumberArg(h)));
  }

  lemma EndKeyTexts()
    ensures KeyOf(Radius1) + " = " == "r1 = " && KeyOf(Radius2) + " = " == "r2 = "
  {
  }

  /** An uncentred cylinder made from variables shows exactly
      `cylinder(center = false, d1 = <d1>, d2 = <d2>, h = <h>);`, each variable
      as written. */
  lemma UncentredBoundScript(d1: Expr, d2: Expr, h: Expr)
    ensures CylinderScript(BoundCylinder(d1, d2, h, None))
         == "cylinder(center = false, d1 = " + Render(d1) + ", d2 = " + Render(d2) + ", h = " + Render(h) + ");"
  {
    BoundCylinderEntries(d1, d2, h, None);
    DiameterBoundScript(BoundCylinder(d1, d2, h, None), d1, d2, h);
  }

  /** The statement of any cylinder whose entries are an uncentred flag and
      two bound diameters and a bound height. */
  lemma DiameterBoundScript(s: CylinderState, d1: Expr, d2: Expr, h: Expr)
    requires CylinderEntries(s)
          == [Entry(Center, FlagArg(false)), Entry(Diameter1, ExprArg(d1)),
              Entry(Diameter2, ExprArg(d2)), Entry(Height, ExprArg(h))]
    ensures CylinderScript(s)
         == "cylinder(center = false, d1 = " + Render(d1) + ", d2 = " + Render(d2) + ", h = " + Render(h) + ");"
  {
    var entries := CylinderEntries(s);
    var texts := FieldTexts(EntryFields(entries));
    DiameterBoundTexts(entries, d1, d2, h, texts);
    JoinFour(texts, ", ");
    LeafOfFour("cylinder", texts[0], texts[1], texts[2], texts[3]);
    UncentredBoundPieces(Render(d1), Render(d2), Render(h));
  }

  /** The pieces of an uncentred bound statement put together. */
  lemma UncentredBoundPieces(r1: string, r2: string, r3: string)
    ensures ("cylinder" + "(" + "center = false" + ", ") + ("d1 = " + r1 + ", ") + ("d2 = " + r2 + ", ") + ("h = " + r3 + ");")
         == "cylinder(center = false, d1 = " + r1 + ", d2 = " + r2 + ", h = " + r3 + ");"
  {
    assert "cylinder" + "(" + "center = false" + ", " == "cylinder(center = false, ";
    assert "cylinder(center = false, " + "d1 = " == "cylinder(center = false, d1 = ";
    assert ", " + "d2 = " == ", d2 = ";
    assert ", " + "h = " == ", h = ";
  }

  /** A binding of `p` stores literals only for `p`: the centring flag and the
      resolution settings of other properties are kept. */
  lemma BindKeepsOthers(s: CylinderState, p: Property, v: Expr)
    ensures var t := BindState(s, p, v);
      && (p != Center ==> t.center == s.center)
      && (p != Resolution ==> t.resolution == s.resolution)
      && (p != MinimumAngle ==> t.minimumAngle == s.minimumAngle)
      && (p != MinimumCircumferentialLength ==> t.minimumCircumferentialLength == s.minimumCircumferentialLength)
  {
  }

  /** A cylinder made from variables holds exactly the given bindings, and it is
      uncentred unless a centring variable is given. */
  lemma BoundCylinderBindings(diameter1: Expr, diameter2: Expr, height: Expr, center: Option<Expr>)
    ensures var s := BoundCylinder(diameter1, diameter2, height, center);
      && s.bindings == (var b := map[Diameter1 := diameter1, Diameter2 := diameter2, Height := height];
                        if center.Some? then b[Center := center.value] else b)
      && (center.None? ==> !s.center)
      && s.resolution.None? && s.minimumAngle.None? && s.minimumCircumferentialLength.None?
  {
    var s3 := BindState(BindState(BindState(DefaultCylinder, Diameter1, diameter1), Diameter2, diameter2), Height, height);
    ShapeBindings(DefaultCylinder, diameter1, diameter2, height);
    if center.Some? {
      BindCenter(s3, center.value);
    }
  }

  /** Binding the centring flag adds its binding and keeps the settings. */
  lemma BindCenter(s: CylinderState, center: Expr)
    ensures var t := BindState(s, Center, center);
      && t.bindings == s.bindings[Center := center]
      && t.resolution == s.resolution && t.minimumAngle == s.minimumAngle
      && t.minimumCircumferentialLength == s.minimumCircumferentialLength
  {
    BindKeepsOthers(s, Center, center);
    BindWithoutRivals(s.bindings, Center, center);
  }

  /** Binding both diameters and then the height on a cylinder without bindings
      leaves exactly those three bindings and keeps the centring flag and the
      settings. */
  lemma ShapeBindings(s: CylinderState, diameter1: Expr, diameter2: Expr, height: Expr)
    requires s.bindings == map[]
    ensures var t := BindState(BindState(BindState(s, Diameter1, diameter1), Diameter2, diameter2), Height, height);
      && t.bindings == map[Diameter1 := diameter1, Diameter2 := diameter2, Height := height]
      && t.center == s.center && t.resolution == s.resolution && t.minimumAngle == s.minimumAngle
      && t.minimumCircumferentialLength == s.minimumCircumferentialLength
  {
    var s1 := BindState(s, Diameter1, diameter1);
    var s2 := BindState(s1, Diameter2, diameter2);
    BindKeepsOthers(s, Diameter1, diameter1);
    BindKeepsOthers(s1, Diameter2, diameter2);
    BindKeepsOthers(s2, Height, height);
    BindWithoutRivals(s.bindings, Diameter1, diameter1);
    BindWithoutRivals(s1.bindings, Diameter2, diameter2);
    BindWithoutRivals(s2.bindings, Height, height);
  }

  /** Binding a property none of whose rivals is bound just adds the binding. */
  lemma BindWithoutRivals(bindings: map<Property, Expr>, p: Property, v: Expr)
    requires forall q :: q in Rivals(p) ==> q !in bindings
    ensures BindMap(bindings, p, v) == bindings[p := v]
  {
    assert bindings - Rivals(p) == bindings;
  }

  /** A cylinder made from variables reads back the variables' values. */
  lemma BoundCylinderReads(diameter1: Expr, diameter2: Expr, height: Expr, center: Option<Expr>)
    requires Fits(Diameter1, diameter1) && Fits(Diameter2, diameter2) && Fits(Height, height)
    ensures var s := BoundCylinder(diameter1, diameter2, height, center);
      && AmountOf(s, Diameter1) == Ok(Eval(diameter1).value)
      && AmountOf(s, Diameter2) == Ok(Eval(diameter2).value)
      && AmountOf(s, Height) == Ok(Eval(height).value)
      && AmountOf(s, Diameter) == Ok(Eval(diameter1).value)
  {
    var s := BoundCylinder(diameter1, diameter2, height, center);
    BoundCylinderLiterals(diameter1, diameter2, height, center);
    BoundCylinderBindings(diameter1, diameter2, height, center);
    BoundRegistry(s.bindings, diameter1, diameter2, height, center);
    DiameterBoundReads(s);
    DiameterIsFirstEnd(s);
  }

  /** The literal diameter is the first end's diameter. */
  lemma DiameterIsFirstEnd(s: CylinderState)
    ensures LiteralReading(s, Diameter) == LiteralReading(s, Diameter1)
  {
  }

  /** The registry of a cylinder made from variables, entry by entry. */
  lemma BoundRegistry(b: map<Property, Expr>, diameter1: Expr, diameter2: Expr, height: Expr, center: Option<Expr>)
    requires b == (var b0 := map[Diameter1 := diameter1, Diameter2 := diameter2, Height := height];
                   if center.Some? then b0[Center := center.value] else b0)
    ensures Diameter1 in b && b[Diameter1] == diameter1
    ensures Diameter2 in b && b[Diameter2] == diameter2
    ensures Height in b && b[Height] == height
    ensures Radius !in b && Diameter !in b && Radius1 !in b && Radius2 !in b
    ensures center.Some? ==> Center in b && b[Center] == center.value
  {
  }

  /** A cylinder made from variables shows `d1`, `d2` and `h`, and `center`
      when a flag variable is given, each with its variable's text. */
  lemma BoundCylinderShows(diameter1: Expr, diameter2: Expr, height: Expr, center: Option<Expr>)
    ensures var script := CylinderScript(BoundCylinder(diameter1, diameter2, height, center));
      && Contains(script, "d1 = " + Render(diameter1))
      && Contains(script, "d2 = " + Render(diameter2))
      && Contains(script, "h = " + Render(height))
      && (center.Some? ==> Contains(script, "center = " + Render(center.value)))
  {
    var s := BoundCylinder(diameter1, diameter2, height, center);
    BoundCylinderExclusive(diameter1, diameter2, height, center);
    BoundCylinderBindings(diameter1, diameter2, height, center);
    BoundRegistry(s.bindings, diameter1, diameter2, height, center);
    BoundTextShown(s, Diameter1);
    BoundTextShown(s, Diameter2);
    BoundTextShown(s, Height);
    if center.Some? {
      BoundTextShown(s, Center);
    }
    ShapeKeyTexts();
  }

  /** The keys of the shape properties followed by ` = `. */
  lemma ShapeKeyTexts()
    ensures KeyOf(Diameter1) + " = " == "d1 = " && KeyOf(Diameter2) + " = " == "d2 = "
    ensures KeyOf(Height) + " = " == "h = " && KeyOf(Center) + " = " == "center = "
  {
  }

  /** A cylinder whose registry holds both diameters and the height, all
      fitting, and no other radius binding, reads back its literal values. */
  lemma DiameterBoundReads(s: CylinderState)
    requires Diameter1 in s.bindings && Fits(Diameter1, s.bindings[Diameter1])
    requires Diameter2 in s.bindings && Fits(Diameter2, s.bindings[Diameter2])
    requires Height in s.bindings && Fits(Height, s.bindings[Height])
    requires Radius !in s.bindings && Diameter !in s.bindings
    requires Radius1 !in s.bindings && Radius2 !in s.bindings
    ensures Read(s, Diameter1) == Ok(LiteralReading(s, Diameter1))
    ensures Read(s, Diameter2) == Ok(LiteralReading(s, Diameter2))
    ensures Read(s, Height) == Ok(LiteralReading(s, Height))
    ensures Read(s, Diameter) == Ok(LiteralReading(s, Diameter))
  {
    FittingBindings(s, Diameter);
    FittingBindings(s, Diameter1);
    FittingBindings(s, Diameter2);
    FittingBindings(s, Height);
  }

  /** A reading whose bindings all fit is the literal reading. */
  lemma FittingBindings(s: CylinderState, q: Property)
    requires forall r :: r in Relevant(q) && r in s.bindings ==> Fits(r, s.bindings[r])
    ensures Read(s, q) == Ok(LiteralReading(s, q))
  {
  }

  /** The literal values of a cylinder made from variables are the variables'
      values: half of each diameter as radius, and the height. */
  lemma BoundCylinderLiterals(diameter1: Expr, diameter2: Expr, height: Expr, center: Option<Expr>)
    requires Fits(Diameter1, diameter1) && Fits(Diameter2, diameter2) && Fits(Height, height)
    ensures var s := BoundCylinder(diameter1, diameter2, height, center);
      && LiteralReading(s, Diameter1) == Amount(Eval(diameter1).value)
      && LiteralReading(s, Diameter2) == Amount(Eval(diameter2).value)
      && LiteralReading(s, Height) == Amount(Eval(height).value)
  {
    BoundValuesRead(diameter1, diameter2, height, center, Eval(diameter1).value, Eval(diameter2).value, Eval(height).value);
  }

  /** The same, over the variables' values. */
  lemma BoundValuesRead(diameter1: Expr, diameter2: Expr, height: Expr, center: Option<Expr>, x1: real, x2: real, x3: real)
    requires Eval(diameter1) == Some(x1) && Eval(diameter2) == Some(x2) && Eval(height) == Some(x3)
    ensures var s := BoundCylinder(diameter1, diameter2, height, center);
      && LiteralReading(s, Diameter1) == Amount(x1)
      && LiteralReading(s, Diameter2) == Amount(x2)
      && LiteralReading(s, Height) == Amount(x3)
  {
    var s1 := BindState(DefaultCylinder, Diameter1, diameter1);
    var s2 := BindState(s1, Diameter2, diameter2);
    var s3 := BindState(s2, Height, height);
    BindLiteralReads(DefaultCylinder, Diameter1, diameter1);
    LaterBindsKeepDiameter1(s1, diameter2, height);
    BindLiteralReads(s1, Diameter2, diameter2);
    BindKeepsReading(s2, Height, height, Diameter2);
    BindLiteralReads(s2, Height, height);
    if center.Some? {
      CenterKeepsLiterals(s3, center.value);
    }
  }

  /** Binding the second diameter and then the height keeps the first
      diameter's literal reading. */
  lemma LaterBindsKeepDiameter1(s: CylinderState, diameter2: Expr, height: Expr)
    ensures LiteralReading(BindState(BindState(s, Diameter2, diameter2), Height, height), Diameter1)
         == LiteralReading(s, Diameter1)
  {
    BindKeepsReading(s, Diameter2, diameter2, Diameter1);
    BindKeepsReading(BindState(s, Diameter2, diameter2), Height, height, Diameter1);
  }

  /** Binding the centring flag keeps the literal readings of the diameters and
      the height. */
  lemma CenterKeepsLiterals(s: CylinderState, center: Expr)
    ensures LiteralReading(BindState(s, Center, center), Diameter1) == LiteralReading(s, Diameter1)
    ensures LiteralReading(BindState(s, Center, center), Diameter2) == LiteralReading(s, Diameter2)
    ensures LiteralReading(BindState(s, Center, center), Height) == LiteralReading(s, Height)
  {
    BindKeepsReading(s, Center, center, Diameter1);
    BindKeepsReading(s, Center, center, Diameter2);
    BindKeepsReading(s, Center, center, Height);
  }

  /** Binding a fitting numeric variable stores its value where the literal
      reading finds it. */
  lemma BindLiteralReads(s: CylinderState, p: Property, v: Expr)
    requires Fits(p, v) && p != Center
    ensures LiteralReading(BindState(s, p, v), p) == Amount(Eval(v).value)
  {
    AssignReads(s, p, v);
  }

  /** A cylinder whose both diameters and height (and perhaps centring flag) are
      bound, with no settings, shows exactly those bindings' text. */
  lemma DiameterBoundEntries(s: CylinderState, diameter1: Expr, diameter2: Expr, height: Expr, center: Option<Expr>)
    requires s.bindings == (var b := map[Diameter1 := diameter1, Diameter2 := diameter2, Height := height];
                            if center.Some? then b[Center := center.value] else b)
    requires center.None? ==> !s.center
    requires s.resolution.None? && s.minimumAngle.None? && s.minimumCircumferentialLength.None?
    ensures CylinderEntries(s)
         == [Entry(Center, if center.Some? then ExprArg(center.value) else FlagArg(false)),
             Entry(Diameter1, ExprArg(diameter1)), Entry(Diameter2, ExprArg(diameter2)), Entry(Height, ExprArg(height))]
  {
    assert SettingEntries(s) == [];
    assert CylinderEntries(s) == ShapeEntries(s) + [];
    assert RadiusEntries(s) == [Entry(Diameter1, ExprArg(diameter1)), Entry(Diameter2, ExprArg(diameter2))];
  }

  /** A cylinder made from variables shows exactly `center`, `d1`, `d2` and `h`
      with the variables' text, `center = false` when no flag variable is given. */
  lemma BoundCylinderEntries(diameter1: Expr, diameter2: Expr, height: Expr, center: Option<Expr>)
    ensures CylinderEntries(BoundCylinder(diameter1, diameter2, height, center))
         == [Entry(Center, if center.Some? then ExprArg(center.value) else FlagArg(false)),
             Entry(Diameter1, ExprArg(diameter1)), Entry(Diameter2, ExprArg(diameter2)), Entry(Height, ExprArg(height))]
  {
    BoundCylinderBindings(diameter1, diameter2, height, center);
    DiameterBoundEntries(BoundCylinder(diameter1, diameter2, height, center), diameter1, diameter2, height, center);
  }

  /** A cylinder object: literal properties updated by its setters, and the
      binding registry updated by `Bind`. */
  class Cylinder {
    var radius1: real
    var radius2: real
    var height: real
    var center: bool
    var resolution: Option<real>
    var minimumAngle: Option<real>
    var minimumCircumferentialLength: Option<real>
    var bindings: map<Property, Expr>

    ghost predicate Valid()
      reads this
    {
      Exclusive(bindings)
    }

    function State(): CylinderState
      reads this
    {
      CylinderState(radius1, radius2, height, center, resolution, minimumAngle,
                    minimumCircumferentialLength, bindings)
    }

    constructor ()
      ensures Valid() && State() == DefaultCylinder
    {
      radius1, radius2, height, center := 1.0, 1.0, 1.0, false;
      resolution, minimumAngle, minimumCircumferentialLength := None, None, None;
      bindings := map[];
    }

    constructor OfDiameter(diameter: real, height: real, center: bool)
      ensures Valid() && State() == DiameterCylinder(diameter, height, center)
    {
      radius1, radius2 := diameter / 2.0, diameter / 2.0;
      this.height, this.center := height, center;
      resolution, minimumAngle, minimumCircumferentialLength := None, None, None;
      bindings := map[];
    }

    constructor OfVariables(diameter1: Expr, diameter2: Expr, height: Expr, center: Option<Expr>)
      ensures Valid() && State() == BoundCylinder(diameter1, diameter2, height, center)
    {
      var s := BoundCylinder(diameter1, diameter2, height, center);
      BoundCylinderExclusive(diameter1, diameter2, height, center);
      radius1, radius2, this.height, this.center := s.radius1, s.radius2, s.height, s.center;
      resolution, minimumAngle, minimumCircumferentialLength := s.resolution, s.minimumAngle, s.minimumCircumferentialLength;
      bindings := s.bindings;
    }

    /** Binds the named property to `v`; an unknown name fails and changes nothing. */
    method Bind(name: string, v: Expr) returns (outcome: Outcome)
      requires Valid()
      modifies this
      ensures Valid()
      ensures ParseProperty(name).None? ==> outcome == Fail(UnknownProperty(name)) && State() == old(State())
      ensures ParseProperty(name).Some? ==>
        outcome == Pass && State() == BindState(old(State()), ParseProperty(name).value, v)
    {
      var property := ParseProperty(name);
      if property.None? {
        return Fail(UnknownProperty(name));
      }
      BindKeepsExclusive(bindings, property.value, v);
      Load(BindState(State(), property.value, v));
      outcome := Pass;
    }

    method SetResolution(x: real)
      requires Valid()
      modifies this
      ensures Valid() && State() == SetSetting(old(State()), Resolution, x)
    {
      resolution := Some(x);
      bindings := bindings - {Resolution};
    }

    method SetMinimumAngle(x: real)
      requires Valid()
      modifies this
      ensures Valid() && State() == SetSetting(old(State()), MinimumAngle, x)
    {
      minimumAngle := Some(x);
      bindings := bindings - {MinimumAngle};
    }

    method SetMinimumCircumferentialLength(x: real)
      requires Valid()
      modifies this
      ensures Valid() && State() == SetSetting(old(State()), MinimumCircumferentialLength, x)
    {
      minimumCircumferentialLength := Some(x);
      bindings := bindings - {MinimumCircumferentialLength};
    }

    /** Stores every field of the given state, whose registry is exclusive. */
    method Load(s: CylinderState)
      requires Exclusive(s.bindings)
      modifies this
      ensures Valid() && State() == s
    {
      radius1, radius2, height, center := s.radius1, s.radius2, s.height, s.center;
      resolution, minimumAngle, minimumCircumferentialLength := s.resolution, s.minimumAngle, s.minimumCircumferentialLength;
      bindings := s.bindings;
    }

    /** A new, independent cylinder with the same properties and bindings. */
    method Clone() returns (c: Cylinder)
      requires Valid()
      ensures fresh(c) && c.Valid() && c.State() == State()
    {
      c := new Cylinder();
      c.radius1, c.radius2, c.height, c.center := radius1, radius2, height, center;
      c.resolution, c.minimumAngle, c.minimumCircumferentialLength := resolution, minimumAngle, minimumCircumferentialLength;
      c.bindings := bindings;
    }
  }
}
