# OSCADSharp node tree, modelled in Dafny

OSCADSharp builds OpenSCAD scripts from a tree of C# objects. The leaves are
primitives (cylinders, spheres, imported shapes). The inner nodes are
transforms that wrap one child (scale, translate, rotate, colour) and boolean
nodes over several children (difference). Each object can:

- render itself as script text;
- report its position and its axis-aligned bounding box;
- clone itself.

Properties of a primitive can be *bound* to named variables. A bound property
takes the variable's value when it is read. The script shows the variable's
name, or the unevaluated arithmetic built from variables, in place of a number.

This project models that core:

- `Spatial`: vectors, boxes, midpoints and box centres.
- `DataBinding`: variables and variable arithmetic. Each expression has two
  independent readings: its numeric value (`Eval`, undefined for
  non-numeric variables and for division by zero) and its script text
  (`Render`, never evaluated and never parenthesised).
- `Scripting`: statement text. A primitive is a leaf, `command(k = v, ...);`.
  A transform or boolean node is a block: its header, then its children's text
  unchanged between braces.
- `Cylinders`: the cylinder. Its state is its literal properties plus a
  registry mapping properties to variables. `Bind` updates the registry
  with later-wins exclusivity between the radius and diameter forms. Accessors
  read the bound values. The statement shows each bound property as
  `key = <variable text>`, and `$fn`/`$fa`/`$fs` only when set or bound. The
  `Cylinder` class holds this state in fields that `Bind` and the setters
  update in place.
- `Spheres`: the sphere, its statement, and a `Sphere` class whose setters
  update its fields.
- `Nodes`: the node tree. `Difference` delegates position and box to its
  first child. `Scaled` renders `scale(v = [X, Y, Z])` around its child. An
  imported shape carries a stored box and an inner node. `Clone` copies a
  tree.
- `Scenarios`: the behaviour the repository's cylinder and sphere tests
  assert, stated and proved on the model. Test methods that build and mutate
  an object are methods over the classes.

Numbers render through `NumText`. It writes the integral digits, then up to 15
fractional digits without trailing zeros.

## Model

| member | source | states |
|---|---|---|
| Nodes.DifferenceScript | OSCADSharp/OSCADSharp/Internal/Booleans/Difference.cs:20 | a difference's script starts with `difference()`, the opening brace and the first child's script, and contains every child's script |
| Nodes.ChildScripts | OSCADSharp/OSCADSharp/Internal/Booleans/Difference.cs:20 | the children's scripts are kept one per child, in the children's order |
| Nodes.Script | OSCADSharp/OSCADSharp/Internal/Booleans/Difference.cs:20 | a difference's script opens with `difference()` and the opening brace; a wrapping node's script opens with its own header and the opening brace |
| Nodes.Position | OSCADSharp/OSCADSharp/Internal/Booleans/Difference.cs:24-27 | only cylinders, differences and imported shapes have a position; a difference has one only when it has children; an imported shape always has one |
| Nodes.NodeBounds | OSCADSharp/OSCADSharp/Internal/Booleans/Difference.cs:29-32 | only cylinders, differences and imported shapes have a box; a difference has one only when it has children; an imported shape always has one |
| Nodes.DifferenceDelegates | OSCADSharp/OSCADSharp/Internal/Booleans/Difference.cs:24-32 | position and box of a difference are those of its first child, whatever the later children are |
| Nodes.EmptyDifference | OSCADSharp/OSCADSharp/Internal/Booleans/Difference.cs:24-32 | a difference without children has no position and no box (the error where the source indexes `children[0]`) |
| Nodes.DefaultScaleHeader | OSCADSharp/OSCADSharp/Transforms/ScaledObject.cs:17 | the default scale factor (1, 1, 1) renders as `scale(v = [1, 1, 1])` |
| Nodes.ScaleHeader | OSCADSharp/OSCADSharp/Transforms/ScaledObject.cs:33-34 | the scale header opens with `scale(v = [` and the x factor's text and closes with the z factor's text and `])`, so the factors appear in x, y, z order |
| Nodes.ScaledScript | OSCADSharp/OSCADSharp/Transforms/ScaledObject.cs:31-37 | a scaled node's script starts with `scale(v = [X, Y, Z])`, the opening brace and the child's own script, contains that script unchanged, and ends with `}` rather than `;` |
| Nodes.WrapperEmbedsChild | OSCADSharp/OSCADSharp/Transforms/ScaledObject.cs:35-36 | a wrapping node's script starts with its header and contains its child's script unchanged |
| Nodes.ImportedSplit | OSCADSharp/OSCADSharp/Solids/Imported/ImportedImage.cs:62-93 | an imported shape's box and position do not depend on its inner node, its script does not depend on its stored box, and two different stored boxes give two different boxes |
| Spatial.Average | OSCADSharp/OSCADSharp/Solids/Imported/ImportedImage.cs:83 | the average of two points lies equally far from both in every component |
| Nodes.ImportedPositionInside | OSCADSharp/OSCADSharp/Solids/Imported/ImportedImage.cs:81-84 | when the stored box's corners are ordered, the imported shape's position lies inside the box |
| Spatial.CentreInside | OSCADSharp/OSCADSharp/Solids/Imported/ImportedImage.cs:83 | an ordered box contains the midpoint of its corners |
| Nodes.PositionIsBoundsCentre | OSCADSharp/OSCADSharp/Solids/Imported/ImportedImage.cs:81-84 | for every node whose position and box are both known, the position is the box's centre |
| Nodes.CloneAll | OSCADSharp/OSCADSharp/Solids/Imported/ImportedImage.cs:71-74 | cloning children clones each child, keeping their number and order |
| Nodes.Clone | OSCADSharp/OSCADSharp/Solids/Imported/ImportedImage.cs:71-74 | the corrected clone of an imported shape is again an imported shape with the same stored box, and only an imported shape clones to one |
| Nodes.CloneAsWritten | OSCADSharp/OSCADSharp/Solids/Imported/ImportedImage.cs:71-74 | the clone as written is never an imported shape, so every stored box is lost |
| Nodes.CloneEqual | OSCADSharp/OSCADSharp/Solids/Imported/ImportedImage.cs:71-74 | the corrected clone equals its original |
| Nodes.CloneKeeps | OSCADSharp/OSCADSharp/Solids/Imported/ImportedImage.cs:71-74 | the corrected clone has the original's script, position and box |
| Nodes.CloneAllAsWritten | OSCADSharp/OSCADSharp/Solids/Imported/ImportedImage.cs:71-74 | cloning children as written clones each child, keeping their number and order |
| Nodes.CloneAsWrittenKeepsScript | OSCADSharp/OSCADSharp/Solids/Imported/ImportedImage.cs:71-74 | the clone as written, which replaces an imported shape by a clone of its inner node, still renders the original's script |
| Nodes.CloneAllAsWrittenKeepsScripts | OSCADSharp/OSCADSharp/Solids/Imported/ImportedImage.cs:71-74 | children cloned as written render their originals' scripts |
| Nodes.CloneAsWrittenLosesBounds | OSCADSharp/OSCADSharp/Solids/Imported/ImportedImage.cs:71-74 | for an imported 2-by-2 cylinder stored with the box (0,0,0)..(4,4,4), the clone as written reports a different box and position than the original |
| Cylinders.DiameterCylinderEntries | OSCADSharp/OSCADSharp.UnitTests/Solids/CylinderTests.cs:19-26 | a cylinder made from diameter, height and flag shows exactly `center`, `r1` and `r2` as half the diameter, and `h`, in that order |
| Cylinders.DiameterCylinderShows | OSCADSharp/OSCADSharp.UnitTests/Solids/CylinderTests.cs:19-26 | that cylinder's script contains `center = <flag>`, `r1 = <d/2>`, `r2 = <d/2>` and `h = <h>` |
| Cylinders.LiteralEntriesShown | OSCADSharp/OSCADSharp.UnitTests/Solids/CylinderTests.cs:19-26 | a cylinder whose entries are the flag, two radii and the height shows each under its key |
| Cylinders.CylinderScriptShape | OSCADSharp/OSCADSharp.UnitTests/Solids/CylinderTests.cs:241 | every cylinder's script opens with `cylinder(` and closes with `);` |
| Cylinders.CylinderPosition | OSCADSharp/OSCADSharp.UnitTests/Solids/CylinderTests.cs:30-43 | a cylinder has a position exactly when its centring flag and height read; the position lies on the z axis |
| Cylinders.CylinderBounds | OSCADSharp/OSCADSharp.UnitTests/Solids/CylinderTests.cs:46-61 | a cylinder's box is symmetric about the z axis and as tall as the height the cylinder reads |
| Scenarios.ConstructorArguments | OSCADSharp/OSCADSharp.UnitTests/Solids/CylinderTests.cs:19-26 | the cylinder (5.5, 12.1, centred) has the entries center = true, r1 = r2 = 2.75, h = 12.1 |
| Scenarios.ConstructorTexts | OSCADSharp/OSCADSharp.UnitTests/Solids/CylinderTests.cs:19-26 | its script contains `r1 = `, `r2 = ` followed by the text of 2.75, `h = ` followed by the text of 12.1, and `center = true` |
| Cylinders.DiameterCylinderGeometry | OSCADSharp/OSCADSharp.UnitTests/Solids/CylinderTests.cs:30-61 | for every diameter d and height h: both radii are d/2, the diameter reads d, the position is the origin when centred and (0, 0, h/2) otherwise, and the box is (-d/2,-d/2,-h/2)..(d/2,d/2,h/2) or (-d/2,-d/2,0)..(d/2,d/2,h) |
| Scenarios.ConstructorGeometry | OSCADSharp/OSCADSharp.UnitTests/Solids/CylinderTests.cs:30-61 | the positions (0,0,20) and origin, and the two boxes, that the tests assert |
| Cylinders.CylinderPositionIsCentre | OSCADSharp/OSCADSharp.UnitTests/Solids/CylinderTests.cs:30-61 | a cylinder's position is the centre of its box |
| Cylinders.CylinderBoundsOrdered | OSCADSharp/OSCADSharp.UnitTests/Solids/CylinderTests.cs:46-61 | a cylinder whose first radius and height are not negative has a box with ordered corners |
| Cylinders.UnsetSettingsAbsent | OSCADSharp/OSCADSharp.UnitTests/Solids/CylinderTests.cs:64-73 | a cylinder with no resolution setting set or bound has no `$fn`, `$fa` or `$fs` in its script |
| Scenarios.DefaultCylinderUnresolved | OSCADSharp/OSCADSharp.UnitTests/Solids/CylinderTests.cs:64-73 | the default cylinder's script has no `$fn`, `$fa` or `$fs` |
| Cylinders.ScriptAvoidsDollar | OSCADSharp/OSCADSharp.UnitTests/Solids/CylinderTests.cs:64-73 | with no setting set or bound and no `$` in any bound variable's names, no `$` appears in a cylinder's script |
| Cylinders.KeyMarksSettings | OSCADSharp/OSCADSharp.UnitTests/Solids/CylinderTests.cs:70-72 | only the three resolution settings have keys containing `$` |
| Cylinders.SettingsShownIffSet | OSCADSharp/OSCADSharp.UnitTests/Solids/CylinderTests.cs:64-90 | each of `$fn`, `$fa`, `$fs` is shown exactly when its property is set or bound |
| Cylinders.SetSetting | OSCADSharp/OSCADSharp.UnitTests/Solids/CylinderTests.cs:78-83 | setting a resolution value drops that property's binding and keeps the registry exclusive |
| Cylinders.SetSettingShown | OSCADSharp/OSCADSharp.UnitTests/Solids/CylinderTests.cs:78-83 | after setting a resolution value, its accessor reads that value and its entry is shown |
| Cylinders.SetSettingText | OSCADSharp/OSCADSharp.UnitTests/Solids/CylinderTests.cs:78-90 | after setting a resolution value, the script contains `key = <value>` |
| Cylinders.SetSettingsAppear | OSCADSharp/OSCADSharp.UnitTests/Solids/CylinderTests.cs:76-90 | with all three settings set, the script contains `$fn`, `$fa` and `$fs` |
| Cylinders.Cylinder.SetResolution | OSCADSharp/OSCADSharp.UnitTests/Solids/CylinderTests.cs:80 | the setter stores the value, drops a binding of it, and keeps the registry exclusive |
| Cylinders.Cylinder.SetMinimumAngle | OSCADSharp/OSCADSharp.UnitTests/Solids/CylinderTests.cs:81 | the same for the minimum angle |
| Cylinders.Cylinder.SetMinimumCircumferentialLength | OSCADSharp/OSCADSharp.UnitTests/Solids/CylinderTests.cs:82 | the same for the minimum circumferential length |
| Scenarios.ResolutionSettings | OSCADSharp/OSCADSharp.UnitTests/Solids/CylinderTests.cs:76-90 | a default cylinder given resolution 40, angle 5 and length 2 by its setters shows `$fn`, `$fa` and `$fs` |
| Cylinders.ParseProperty | OSCADSharp/OSCADSharp.UnitTests/Solids/CylinderTests.cs:98 | a name that `Bind` accepts denotes the property of that name |
| Cylinders.ParsePropertyName | OSCADSharp/OSCADSharp.UnitTests/Solids/CylinderTests.cs:98 | every property is found again under its own name |
| Cylinders.Cylinder.Bind | OSCADSharp/OSCADSharp.UnitTests/Solids/CylinderTests.cs:98 | binding a known name updates the state as `BindState` says and keeps the registry exclusive; an unknown name fails and changes nothing |
| Cylinders.BindState | OSCADSharp/OSCADSharp.UnitTests/Solids/CylinderTests.cs:98 | the new registry is the old one with the property bound and its rivals removed |
| Cylinders.BindMap | OSCADSharp/OSCADSharp.UnitTests/Solids/CylinderTests.cs:143-164 | the bound property maps to the variable, its rivals are gone, and every other entry is unchanged |
| Cylinders.BindKeepsExclusive | OSCADSharp/OSCADSharp.UnitTests/Solids/CylinderTests.cs:143-164 | binding keeps the registry free of two rival bindings |
| Cylinders.RivalsSymmetric | OSCADSharp/OSCADSharp.UnitTests/Solids/CylinderTests.cs:143-164 | rivalry between radius and diameter forms is mutual and irreflexive |
| Cylinders.ReadAfterBind | OSCADSharp/OSCADSharp.UnitTests/Solids/CylinderTests.cs:102 | after binding p to v, the accessor of p returns v's value, or a type mismatch when v does not fit |
| Cylinders.Read | OSCADSharp/OSCADSharp.UnitTests/Solids/CylinderTests.cs:102 | a cylinder without bindings always reads; the only failure is a type mismatch naming the property read |
| Cylinders.BindMismatch | OSCADSharp/OSCADSharp.UnitTests/Solids/CylinderTests.cs:102 | after binding p to v, reading p is a mismatch exactly when v does not fit p |
| Cylinders.ReadUnaffected | OSCADSharp/OSCADSharp.UnitTests/Solids/CylinderTests.cs:113-119 | binding p leaves the reading of q unchanged when q does not rest on p and no rival of p that q rests on is bound |
| Cylinders.ReadAfterLaterBind | OSCADSharp/OSCADSharp.UnitTests/Solids/CylinderTests.cs:113-119 | binding a second, unrelated end keeps the first binding's reading |
| Cylinders.BindKeepsReading | OSCADSharp/OSCADSharp.UnitTests/Solids/CylinderTests.cs:113-119 | binding p leaves the literal readings of properties that p does not touch unchanged |
| Cylinders.BindKeepsOthers | OSCADSharp/OSCADSharp.UnitTests/Solids/CylinderTests.cs:113-119 | binding p changes no centring flag or resolution setting except p's own |
| Cylinders.BindShowsEntry | OSCADSharp/OSCADSharp.UnitTests/Solids/CylinderTests.cs:93-140 | after binding p to v, the statement has the entry p = v |
| Cylinders.BindShowsText | OSCADSharp/OSCADSharp.UnitTests/Solids/CylinderTests.cs:93-140 | after binding p to v, the script contains `<key of p> = <text of v>` |
| Cylinders.BoundEntryShown | OSCADSharp/OSCADSharp.UnitTests/Solids/CylinderTests.cs:93-140 | in an exclusive registry every binding is shown as its entry |
| Cylinders.BoundTextShown | OSCADSharp/OSCADSharp.UnitTests/Solids/CylinderTests.cs:93-140 | in an exclusive registry every binding appears in the script as `key = <text>` |
| Scenarios.CenterBinding | OSCADSharp/OSCADSharp.UnitTests/Solids/CylinderTests.cs:93-104 | binding Center to the true variable `isCentered` makes Center read true and the script contain `center = isCentered` |
| Scenarios.CenterRead | OSCADSharp/OSCADSharp.UnitTests/Solids/CylinderTests.cs:102 | after that binding, Center reads true |
| Scenarios.CenterText | OSCADSharp/OSCADSharp.UnitTests/Solids/CylinderTests.cs:103 | after that binding, the script contains `center = isCentered` |
| Scenarios.EndRadiiBinding | OSCADSharp/OSCADSharp.UnitTests/Solids/CylinderTests.cs:107-122 | binding Radius1 to `radius1` (5) and Radius2 to `radius2` (25) reads 5 and 25 and shows `r1 = radius1` and `r2 = radius2` |
| Scenarios.EndDiametersBinding | OSCADSharp/OSCADSharp.UnitTests/Solids/CylinderTests.cs:125-140 | binding Diameter1 and Diameter2 to two variables both named `diameter2` (5 and 25) reads 5 and 25 and shows `d1 = diameter2` and `d2 = diameter2` |
| Scenarios.EndsRead | OSCADSharp/OSCADSharp.UnitTests/Solids/CylinderTests.cs:113-119 | after binding both ends, each end reads its own variable's value |
| Scenarios.EndsShown | OSCADSharp/OSCADSharp.UnitTests/Solids/CylinderTests.cs:113-121 | after binding both ends, the script shows each end's key with its variable's text |
| Cylinders.BindHidesRivals | OSCADSharp/OSCADSharp.UnitTests/Solids/CylinderTests.cs:143-164 | after binding p, none of p's rivals is shown |
| Cylinders.RadiusShown | OSCADSharp/OSCADSharp.UnitTests/Solids/CylinderTests.cs:143-164 | which of r, d, r1, d1, r2, d2 is shown, for every registry |
| Cylinders.OneRepresentationPerRadius | OSCADSharp/OSCADSharp.UnitTests/Solids/CylinderTests.cs:143-164 | each radius is shown in exactly one form: r or d for both ends, or one of r1/d1 and one of r2/d2 |
| Cylinders.ShownProperties | OSCADSharp/OSCADSharp.UnitTests/Solids/CylinderTests.cs:143-164 | the shown properties are center, the radius properties, h, then the settings |
| Scenarios.RadiusThenDiameter | OSCADSharp/OSCADSharp.UnitTests/Solids/CylinderTests.cs:143-164 | after binding Radius to 45, Radius reads 45, Radius is shown and Diameter is not, and the script contains `r = radius` and not `d = diameter`; after then binding Diameter to 15.5, Diameter reads 15.5, Diameter is shown and Radius is not, and the script contains `d = diameter` and not `r = radius` |
| Scenarios.RadiusFirstFacts | OSCADSharp/OSCADSharp.UnitTests/Solids/CylinderTests.cs:149-155 | a default cylinder with Radius bound to `radius` (45) reads 45 and its script contains `r = radius` and not `d = diameter` |
| Scenarios.DiameterSecondFacts | OSCADSharp/OSCADSharp.UnitTests/Solids/CylinderTests.cs:157-163 | binding Diameter to `diameter` (15.5) afterwards reads 15.5 and its script contains `d = diameter` and not `r = radius` |
| Cylinders.LoneBindingAvoids | OSCADSharp/OSCADSharp.UnitTests/Solids/CylinderTests.cs:155 | a cylinder whose only binding is p, with no settings, shows no character that neither its fixed keys and texts nor p's variable contain |
| Cylinders.ScriptAvoids | OSCADSharp/OSCADSharp.UnitTests/Solids/CylinderTests.cs:155 | a cylinder without settings whose variables avoid a character that no key or literal text contains has a script without that character |
| Scenarios.ShownAfterBind | OSCADSharp/OSCADSharp.UnitTests/Solids/CylinderTests.cs:143-164 | after binding p, p is shown and a rival q is not |
| Scenarios.NumberRead | OSCADSharp/OSCADSharp.UnitTests/Solids/CylinderTests.cs:153-161 | after binding any property but Center to a numeric variable, it reads that number |
| Scenarios.SettingsBinding | OSCADSharp/OSCADSharp.UnitTests/Solids/CylinderTests.cs:167-182 | binding the three settings to `resolution`, `angle` and `circLength` shows `$fn = resolution`, `$fa = angle` and `$fs = circLength` |
| Scenarios.SettingsShown | OSCADSharp/OSCADSharp.UnitTests/Solids/CylinderTests.cs:174-181 | after binding the three settings, the script shows each key with its variable's text |
| Cylinders.BoundCylinderExclusive | OSCADSharp/OSCADSharp.UnitTests/Solids/CylinderTests.cs:190 | a cylinder made from variables has an exclusive registry |
| Cylinders.Cylinder.OfVariables | OSCADSharp/OSCADSharp.UnitTests/Solids/CylinderTests.cs:190 | the constructor from variables binds Diameter1, Diameter2, Height and, when given, Center |
| Cylinders.BoundCylinderBindings | OSCADSharp/OSCADSharp.UnitTests/Solids/CylinderTests.cs:190 | the cylinder made from variables has exactly the bindings Diameter1, Diameter2 and Height, plus Center when a centring variable is given; it is uncentred without one and has no resolution setting |
| Cylinders.BoundCylinderReads | OSCADSharp/OSCADSharp.UnitTests/Solids/CylinderTests.cs:192-193 | with numeric variables, both diameters, the height and Diameter read the variables' values |
| Cylinders.BoundCylinderShows | OSCADSharp/OSCADSharp.UnitTests/Solids/CylinderTests.cs:197-199 | the script contains `d1 = `, `d2 = ` and `h = ` followed by the variables' texts, and `center = ` with the centre's text when given |
| Scenarios.PreBoundCylinder | OSCADSharp/OSCADSharp.UnitTests/Solids/CylinderTests.cs:185-201 | the cylinder made from `mainColumn` twice and `overallHeight` reads their values and shows `d1 = mainColumn`, `d2 = mainColumn` and `h = overallHeight` |
| Cylinders.Cylinder.Clone | OSCADSharp/OSCADSharp.UnitTests/Solids/CylinderTests.cs:215 | a clone is a new cylinder with the same properties and bindings |
| Scenarios.ClonedWrappedCylinder | OSCADSharp/OSCADSharp.UnitTests/Solids/CylinderTests.cs:204-225 | the clone as the program makes it (`CloneAsWritten`) of that cylinder, centred by `isCentered`, rotated by `myRot` and coloured by `myColor`, shows `color(myColor`, `rotate(myRot)`, `center = isCentered`, `d1 = mainColumn`, `d2 = mainColumn` and `h = overallHeight` |
| Scenarios.WrappedTwice | OSCADSharp/OSCADSharp.UnitTests/Solids/CylinderTests.cs:219-225 | text shown by the innermost node is shown by a node that wraps it twice |
| Scenarios.WrapperHeadersShown | OSCADSharp/OSCADSharp.UnitTests/Solids/CylinderTests.cs:219-220 | a colour node around a rotation shows `color(myColor` and `rotate(myRot)` |
| Nodes.ColorHeaderOpens | OSCADSharp/OSCADSharp.UnitTests/Solids/CylinderTests.cs:219 | a colour header opens with `color(` and the colour's text |
| DataBinding.Apply | OSCADSharp/OSCADSharp.UnitTests/Solids/CylinderTests.cs:234-235 | arithmetic has no value exactly on division by zero; a sum less the right operand, a difference plus it, a product divided by a non-zero right operand and a quotient times it each give the left operand back; a product by zero is zero |
| DataBinding.Eval | OSCADSharp/OSCADSharp.UnitTests/Solids/CylinderTests.cs:234-235 | arithmetic over an operand without a value has none, a negation has a value exactly when its operand has, and a variable has one exactly when it holds a number |
| DataBinding.RenderShape | OSCADSharp/OSCADSharp.UnitTests/Solids/CylinderTests.cs:234-240 | arithmetic renders as its left operand's text, the operator between spaces, then its right operand's text; a negation renders with a leading minus |
| DataBinding.RenderIgnoresValues | OSCADSharp/OSCADSharp.UnitTests/Solids/CylinderTests.cs:234-240 | the text of an expression depends only on its names, literals and operators, never on the variables' values |
| DataBinding.EvalIgnoresNames | OSCADSharp/OSCADSharp.UnitTests/Solids/CylinderTests.cs:234-235 | the value of an expression never depends on the variables' names |
| DataBinding.RenderDropsGrouping | OSCADSharp/OSCADSharp.UnitTests/Solids/CylinderTests.cs:239 | operands are not parenthesised, so `a - (b - c)` and `(a - b) - c` have the same text and different values |
| Cylinders.UncentredBoundScript | OSCADSharp/OSCADSharp.UnitTests/Solids/CylinderTests.cs:240 | an uncentred cylinder made from variables renders exactly `cylinder(center = false, d1 = <d1>, d2 = <d2>, h = <h>);` |
| Scenarios.WheelCylinder | OSCADSharp/OSCADSharp.UnitTests/Solids/CylinderTests.cs:234-240 | the wheel-hole cylinder renders exactly `cylinder(center = false, d1 = wheelHoleDiameter - 1, d2 = wheelHoleDiameter - 1, h = wheelThickness + 2);` |
| Scenarios.WheelTranslated | OSCADSharp/OSCADSharp.UnitTests/Solids/CylinderTests.cs:234-240 | the wheel-hole cylinder translated by (0, -wheelDiameter / 2 + wheelHoleDiameter / 2, 0) has a script that opens with `translate(v = [0, -wheelDiameter / 2 + wheelHoleDiameter / 2, 0])` and contains the cylinder's statement above |
| Scenarios.WheelReadings | OSCADSharp/OSCADSharp.UnitTests/Solids/CylinderTests.cs:230-235 | for every thickness and hole diameter, the wheel-hole cylinder reads the hole diameter less 1 for both diameters and the thickness plus 2 for the height |
| Scenarios.SameEndsRead | OSCADSharp/OSCADSharp.UnitTests/Solids/CylinderTests.cs:234 | a cylinder made from one diameter expression for both ends and a height expression reads their values |
| Scenarios.WheelOffsetValue | OSCADSharp/OSCADSharp.UnitTests/Solids/CylinderTests.cs:235 | the translation's y offset evaluates to half the hole diameter less half the wheel diameter |
| Scenarios.WheelArguments | OSCADSharp/OSCADSharp.UnitTests/Solids/CylinderTests.cs:234 | `wheelHoleDiameter - 1` and `wheelThickness + 2` render as written |
| Scenarios.WheelOffset | OSCADSharp/OSCADSharp.UnitTests/Solids/CylinderTests.cs:235-239 | the translation by (0, -wheelDiameter / 2 + wheelHoleDiameter / 2, 0) renders as `translate(v = [0, -wheelDiameter / 2 + wheelHoleDiameter / 2, 0])` |
| Spheres.SphereOfDiameter | OSCADSharp/OSCADSharp.UnitTests/SphereTests.cs:15 | a sphere made from a diameter has half of it as radius and no settings |
| Spheres.Diameter | OSCADSharp/OSCADSharp.UnitTests/SphereTests.cs:62 | the diameter is twice the radius |
| Spheres.WithDiameter | OSCADSharp/OSCADSharp.UnitTests/SphereTests.cs:62 | setting the diameter makes it read back and keeps every setting |
| Spheres.Sphere.SetDiameter | OSCADSharp/OSCADSharp.UnitTests/SphereTests.cs:62 | the setter stores half the diameter as radius and nothing else |
| Scenarios.SphereRadius | OSCADSharp/OSCADSharp.UnitTests/SphereTests.cs:19-22 | the sphere of diameter 10 has radius 5 |
| Spheres.OptionalField | OSCADSharp/OSCADSharp.UnitTests/SphereTests.cs:25-44 | a setting contributes its field exactly when it is set |
| Spheres.SphereShowsField | OSCADSharp/OSCADSharp.UnitTests/SphereTests.cs:25-44 | every header field of a sphere appears in its script as `key = value` |
| Spheres.SphereShowsRadius | OSCADSharp/OSCADSharp.UnitTests/SphereTests.cs:15 | a sphere's script shows `r = <radius>` |
| Spheres.SphereShowsResolution | OSCADSharp/OSCADSharp.UnitTests/SphereTests.cs:25-32 | a set resolution appears as `$fn = <value>` |
| Spheres.Sphere.SetResolution | OSCADSharp/OSCADSharp.UnitTests/SphereTests.cs:27 | the setter stores the resolution and nothing else |
| Scenarios.SphereResolution | OSCADSharp/OSCADSharp.UnitTests/SphereTests.cs:25-32 | the sphere of diameter 10 given resolution 30 shows `$fn = 30` |
| Scenarios.ResolutionThirtyShown | OSCADSharp/OSCADSharp.UnitTests/SphereTests.cs:31 | a sphere with resolution 30 shows `$fn = 30` |
| Spheres.SphereShowsMinimumAngle | OSCADSharp/OSCADSharp.UnitTests/SphereTests.cs:35-44 | a set minimum angle appears as `$fa = <value>` |
| Spheres.SphereShowsMinimumFragmentSize | OSCADSharp/OSCADSharp.UnitTests/SphereTests.cs:35-44 | a set minimum fragment size appears as `$fs = <value>` |
| Spheres.Sphere.SetMinimumAngle | OSCADSharp/OSCADSharp.UnitTests/SphereTests.cs:37 | the setter stores the minimum angle and nothing else |
| Spheres.Sphere.SetMinimumFragmentSize | OSCADSharp/OSCADSharp.UnitTests/SphereTests.cs:38 | the setter stores the minimum fragment size and nothing else |
| Scenarios.SphereAngleAndFragmentSize | OSCADSharp/OSCADSharp.UnitTests/SphereTests.cs:35-44 | the sphere given angle 2 and fragment size 4 shows `$fa = 2` and `$fs = 4` |
| Scenarios.AngleAndFragmentShown | OSCADSharp/OSCADSharp.UnitTests/SphereTests.cs:42-43 | a sphere with angle 2 and fragment size 4 shows `$fa = 2` and `$fs = 4` |
| Scenarios.IntegralText | OSCADSharp/OSCADSharp.UnitTests/SphereTests.cs:31-43 | a whole number below 100 renders as its one or two decimal digits |
| Spheres.SphereScriptShape | OSCADSharp/OSCADSharp.UnitTests/SphereTests.cs:47-55 | every sphere's script starts with `sphere(` and ends with `);` |
| Scenarios.ParameterlessSphere | OSCADSharp/OSCADSharp.UnitTests/SphereTests.cs:47-55 | the sphere made without arguments starts with `sphere(` and ends with `);` |
| Spheres.UnsetSphereSettingsAbsent | OSCADSharp/OSCADSharp.UnitTests/SphereTests.cs:24-44 | a sphere without settings has no `$fn`, `$fa` or `$fs` in its script; the tests show each key only after its setting is given, and its absence before is reconstructed |
| Spheres.Sphere.constructor | OSCADSharp/OSCADSharp.UnitTests/SphereTests.cs:49 | a sphere made without arguments has radius 1 and no settings |
| Spheres.Sphere.OfDiameter | OSCADSharp/OSCADSharp.UnitTests/SphereTests.cs:15 | a sphere made from a diameter holds the state `SphereOfDiameter` gives |
| Spheres.Sphere.Clone | OSCADSharp/OSCADSharp.UnitTests/SphereTests.cs:68 | a clone is a new sphere with the same radius and settings |
| Scenarios.SphereCloneEqual | OSCADSharp/OSCADSharp.UnitTests/SphereTests.cs:58-71 | the configured sphere (diameter 10, angle 5, fragment size 5, resolution 30) and its clone are equal |

## Left out

- `ImportedImage.FromFile` (ImportedImage.cs:29-54) reads an image file and runs an image processor. An imported shape is modelled as a given stored box plus an inner node.
- Writing scripts to files, global variables and output settings are not modelled. They are output plumbing outside the node tree.
- The `Cylinder`, `Sphere`, `Variable`, `BlockFormatter` and transform classes other than `ScaledObject` are not part of this model as source. Their behaviour is reconstructed from the tests that exercise them. This covers the defaults (radius 1, height 1), the order of the header fields, and the exclusivity groups among radius and diameter bindings. It also covers the block layout: the header, a brace line, the body and a closing brace, with no indentation.
- Number rendering: `NumText` stands in for .NET's `double.ToString()`. It writes at most 15 fractional digits and truncates beyond them. It does not reproduce .NET's round-trip formatting, exponent notation or culture settings. Exact decimal texts are proved only for whole numbers below 100. For 2.75 and 12.1, `Scenarios.ConstructorTexts` states the text as `NumText` of the value.
- Doubles are modelled as exact reals. Rounding and overflow of floating point are not modelled.
- The `Inches` unit constants and conversions are parameters of the scenarios (`half`, `quarter`, `thickness`, `hole`, `wheel`), not fixed values.
- Position and box of scaled, translated, rotated and coloured nodes and of spheres are the error `Unmodelled`, because no rule for them is part of this model.
- Spheres are not bindable. The sphere tests do not bind, so sphere bindings are not modelled.
- A bound variable whose value does not fit its property (a non-numeric variable, or a division by zero) leaves the stored literal as it was. Reading that property then fails with a type mismatch.
- DataBinding.Apply: a division by zero has no value here. This departs from C# `double` arithmetic, where it gives positive or negative infinity, or NaN for 0 / 0; the model treats such a value as not fitting any property.
- Cylinders.CylinderBounds: the box's half-width in x and y is the larger of the two end radii. No line of the repository fixes this for unequal radii; the tests only use equal ones.
- Sphere equality is modelled as equality of the sphere's state (radius and settings).
- Scenarios.ResolutionSettings: the test checks only that the `$fn`, `$fa` and `$fs` keys are present, and the contract states that and no more.
- Scenarios.WheelOffset, Scenarios.WheelCylinder and Scenarios.WheelTranslated state the expected text as a concatenation of its pieces rather than one literal.
- Spheres.SphereScript, Cylinders.CylinderScript and DataBinding.Render carry no contract of their own; what they promise is stated by Spheres.SphereScriptShape, Cylinders.CylinderScriptShape and DataBinding.RenderShape.
- A colour node's opacity is a parameter of the clone scenario, because the test leaves it at its default.
- `ScaledObject.ToString` changes neither the scale factor nor the child. Every node is an immutable value here, so that holds by construction.

## Findings

| source | as written | input that shows it | evidently intended | confidence | as-written member | corrected member |
|---|---|---|---|---|---|---|
| OSCADSharp/OSCADSharp/Solids/Imported/ImportedImage.cs:71-74 | `Clone()` returns a clone of the inner object rather than of the imported image, so the copy loses the stored box | an imported 2-by-2 cylinder stored with the box (0,0,0)..(4,4,4): the original reports that box and position (2,2,2); the clone reports (-1,-1,0)..(1,1,2) and (0,0,1) | a clone that is an imported image with the same inner object and stored box, as the method's documentation ("a copy of this object") says | low, not executed | Nodes.CloneAsWrittenLosesBounds | Nodes.CloneKeeps |
