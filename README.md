# Rubik's cube algebra, modelled in Dafny

This project models the combinatorial core of a small C# Rubik's-cube
program. The cube is a 3x3x3 lattice of cubies. Each cubie sits at an
*arrow*, a triple of signs in {-1, 0, +1}. A *sticker* (`CubieFace`) is a
cubie together with the outward unit normal of one of its faces. The
algebra covers:

- validating stickers (`Check`) and face turns (`FaceTurn`);
- the solved colouring (`InitialColor`, `InitialCube`);
- turning one layer of stickers (`Turn`) and a whole cube state by
  pull-back (`TurnCube`), and undoing a turn (`Inverse`);
- walking across the surface one sticker at a time (`Neighbour`, both
  `ReOrient` overloads, `Follow`, `Loop`, `FollowDirections`);
- the finite enumerations `Arrows`, `Basis` and `Directions`;
- the triangle fan of `EnumeratePolygon`, and the lattice part of
  `SquareVertices`;
- `Axis.Cycle`;
- the checks the program's `Main`/`Main2` print. Here each is a lemma over
  every input it ranges over.

Modules, one per file:

- `Signs`, `Axes`, `ArrowAlgebra` and `Autos` hold the value types the cube
  algebra is written against.
- `Stickers` and `Turns` hold stickers, face turns and cube states.
- `Runs` and `Walks` hold the surface walk.
- `Enumerations` holds the enumerations, `Polygons` the drawing helpers,
  and `MainChecks` the harness checks.

Modelling choices:

- **Throwing as `None`.** A constructor or check that throws is a function
  returning `Option`, with `None` for the throw. This covers the
  `CubieFace`, `CubieFace2` and `FaceTurn` constructors, `InitialColor`,
  `Neighbour`, `ReOrient` and `EnumeratePolygon`.
- **Cube state.** A cube state is a function from stickers to
  `Option<Color>`.
- **Loops as methods.** The loops of `Follow`, `FollowDirections`, `Arrows`,
  `Directions`, `EnumeratePolygon` and the counting loops of `Main`/`Main2`
  are methods. Each is proved against a specification function.
- **Arrows.** This model defines `Sign`, `Arrow` and `Auto` from the way
  the algebra calls them: `Dot`, `Cross`, `Add`, `Negate`, `Scale`,
  `Rotate`, and the checks `CheckUnit`, `CheckNonZero`, `CheckParallel` and
  `CheckPerpendicular`. A sign is -1, 0 or 1 as an integer: the indexer
  uses `(int)sign + 1` as a table index (Graphics/RubikAlgebra.cs:31).
- **Enumeration order.** `Enum.GetValues` lists an enum's constants sorted
  by the unsigned value of their underlying integers. For `Sign` that is
  Zero, Positive, Negative, because -1 read as unsigned is the largest.
  So `Arrows()` starts at (0, 0, 0) and `Basis()` is +Z, -Z, +Y, -Y, +X,
  -X. `Axis` has the values 0, 1, 2 and runs X, Y, Z.
- **Rotation.** A rotation about a unit axis is the cross product plus the
  component along the axis. This is a quarter turn that fixes the axis.
  `ArrowAlgebra.RotateVectorIsQuarterTurn` proves it equal to an
  independent table of the six quarter turns. A bare cross product would
  send a sticker's face to the zero arrow when the face equals the turn
  axis. The sticker constructor inside `Turn` would then reject it.
- **Loop closure.** `Loop` is proved closed from outer stickers, those
  with `cubie . face == 1`, which are the ones `Main2` passes
  (Graphics/Program.cs:421-428); see `Walks.LoopCloses`.
  `Walks.LoopNeedsOuterSticker` shows a valid sticker facing into the
  cube from which the loop ends elsewhere.

## Model

| member | source | states |
|---|---|---|
| Signs.ToInt | Graphics/RubikAlgebra.cs:31 | the cast `(int)sign` lies in -1..1, and its sign tells Negative, Zero and Positive apart |
| Signs.FromInt | Graphics/Program.cs:359 | the cast `(Sign)n`, for n in -1..1, is the sign whose integer is n |
| Signs.FromIntToInt | Graphics/Program.cs:359 | casting a sign to int and back gives the same sign |
| Signs.Neg | Graphics/RubikAlgebra.cs:197 | negating a sign negates its integer |
| Signs.MulToInt | Graphics/Program.cs:359 | the product of two signs is the integer product of their values |
| Signs.TableIndex | Graphics/RubikAlgebra.cs:31 | `(int)sign + 1` is a valid index of a 3-wide table dimension |
| Signs.TableIndexInjective | Graphics/RubikAlgebra.cs:31 | distinct signs get distinct table indices |
| Axes.Ordinal | Graphics/Axis.cs:14 | `(int)axis` is below 3 |
| Axes.FromOrdinal | Graphics/Axis.cs:14 | the cast `(Axis)n` inverts `(int)axis` on 0..2 |
| Axes.Cycle | Graphics/Axis.cs:12-15 | the next axis has ordinal `(ordinal + 1) % 3`, and is never the argument |
| Axes.CycleTable | Graphics/Axis.cs:14 | Cycle maps X to Y, Y to Z and Z to X |
| Axes.CycleThrice | Graphics/Axis.cs:14 | three cycles give back the axis |
| Axes.CycleBijective | Graphics/Axis.cs:14 | Cycle is injective and every axis is the cycle of some axis |
| Autos.Auto.Power | Graphics/RubikAlgebra.cs:205 | `Power(0)` is the identity map |
| Autos.Auto.Morph | Graphics/RubikAlgebra.cs:205 | `Morph` applies the wrapped map; `Power` and the rotation lemmas state what it does |
| Autos.PowerAdd | Graphics/RubikAlgebra.cs:205 | `Power(m + n)` is `Power(m)` after `Power(n)` |
| Autos.PowerPreserves | Graphics/RubikAlgebra.cs:205 | a property the map preserves is preserved by all its powers |
| Autos.PowerPeriodic | Graphics/RubikAlgebra.cs:205 | if `Power(p)` is the identity then so is `Power(p * k)` |
| ArrowAlgebra.AsArrow | Graphics/Program.cs:538 | `axis.AsArrow()` is +1 along the axis and 0 along the two others |
| ArrowAlgebra.Dot | Graphics/RubikAlgebra.cs:153 | the inner product of two arrows lies in -3..3 |
| ArrowAlgebra.SquaredMagnitude | Graphics/Program.cs:439 | the squared length is the number of non-zero components, and is 0 only for the zero arrow |
| ArrowAlgebra.Negate | Graphics/RubikAlgebra.cs:197 | each component of the negation is the negated component |
| ArrowAlgebra.Scale | Graphics/Program.cs:359 | each component of `a.Scale(s)` is the component times `s` |
| ArrowAlgebra.Add | Graphics/RubikAlgebra.cs:186 | each component of the sum is the integer sum of the components |
| ArrowAlgebra.CrossPerpendicular | Graphics/Program.cs:365 | the cross product is perpendicular to both operands |
| ArrowAlgebra.Cross | Graphics/Program.cs:365 | the cross product is perpendicular to both operands |
| ArrowAlgebra.DotNegate | Graphics/RubikAlgebra.cs:197 | negating one side negates the inner product and keeps unit length |
| ArrowAlgebra.UnitCases | Graphics/RubikAlgebra.cs:232 | `CheckUnit` passes exactly for the six unit arrows, that is for one non-zero component |
| ArrowAlgebra.IsUnit | Graphics/RubikAlgebra.cs:232 | `CheckUnit`: `Dot(a, a) == 1`; `UnitCases` shows these are the six unit arrows |
| ArrowAlgebra.IsNonZero | Graphics/RubikAlgebra.cs:230 | `CheckNonZero`: the arrow is not the origin |
| ArrowAlgebra.IsParallel | Graphics/RubikAlgebra.cs:234 | `CheckParallel`: a non-zero component along the axis |
| ArrowAlgebra.IsPerpendicular | Graphics/RubikAlgebra.cs:241 | `CheckPerpendicular`: no component along the axis |
| ArrowAlgebra.UnitCrossFits | Graphics/RubikAlgebra.cs:148 | for a unit axis, cross product and rotation stay on the lattice |
| ArrowAlgebra.RotateVectorIsQuarterTurn | Graphics/RubikAlgebra.cs:148 | cross product plus axis component agrees with the table of six right-handed quarter turns |
| ArrowAlgebra.Rotate | Graphics/RubikAlgebra.cs:148 | `axis.Rotate()` morphs every arrow by the quarter-turn table |
| ArrowAlgebra.RotatePowerFour | Graphics/Program.cs:454 | the fourth power of a rotation about a unit axis is the identity |
| ArrowAlgebra.RotatePreservesDot | Graphics/RubikAlgebra.cs:148 | a rotation keeps inner products |
| ArrowAlgebra.RotateKeepsAxis | Graphics/RubikAlgebra.cs:148 | a rotation fixes its axis and keeps every arrow's component along it |
| ArrowAlgebra.RotatePreservesMagnitude | Graphics/Program.cs:439 | a rotation keeps squared length, unit length and non-zeroness |
| ArrowAlgebra.RotateIsCrossOnPerpendicular | Graphics/Program.cs:365 | on an arrow perpendicular to the axis, the rotation is the plain cross product |
| ArrowAlgebra.CrossOfPerpendicularUnits | Graphics/Program.cs:365 | the cross product of perpendicular unit arrows is a unit arrow |
| ArrowAlgebra.QuarterTurnFour | Graphics/Program.cs:454 | four quarter turns of the table give back every arrow |
| Stickers.MakeCubieFace2 | Graphics/RubikAlgebra.cs:11-20 | the old sticker is built exactly when the cubie is non-zero on the face axis |
| Stickers.Slot | Graphics/RubikAlgebra.cs:31 | every old sticker's table cell is within the 3x3x3x3 bounds |
| Stickers.SlotInjective | Graphics/RubikAlgebra.cs:31 | distinct old stickers own distinct table cells |
| Stickers.RubikCube2.constructor | Graphics/RubikAlgebra.cs:25 | a fresh 3x3x3x3 table in which every sticker reads the default colour |
| Stickers.RubikCube2.Lookup | Graphics/RubikAlgebra.cs:27-33 | the indexer reads the table cell `Slot` gives; `SlotInjective` shows stickers never share a cell |
| Stickers.MakeCubieFace | Graphics/RubikAlgebra.cs:41-47 | `Check` accepts exactly a unit face with the cubie non-zero on its axis, and the built sticker is valid |
| Stickers.Valid | Graphics/RubikAlgebra.cs:228-235 | `Check()`: a non-zero cubie, a unit face, the cubie non-zero along the face |
| Stickers.MakeFaceTurn | Graphics/RubikAlgebra.cs:59-64 | a face turn is built exactly from one of the six unit arrows |
| Turns.RubikCube.At | Graphics/RubikAlgebra.cs:72-88 | the indexer of a cube state calls its getter; `None` where the getter throws |
| Turns.InitialColor | Graphics/RubikAlgebra.cs:104-137 | -Z Green, +Z Blue, -X Orange, +X Red, -Y Yellow, +Y White; throws exactly on the zero arrow |
| Turns.InitialColorBijective | Graphics/RubikAlgebra.cs:104-137 | the six faces get six different colours and every colour is used |
| Turns.InitialCube | Graphics/RubikAlgebra.cs:92-101 | every valid sticker has a colour, which depends only on its face |
| Turns.Inverse | Graphics/RubikAlgebra.cs:139-144 | the inverse is three copies of the axis |
| Turns.TurnedValid | Graphics/RubikAlgebra.cs:155-157 | a turned valid sticker is valid, keeps `cubie . face` and keeps `cubie . axis` |
| Turns.Turn | Graphics/RubikAlgebra.cs:146-162 | identity outside the layer `cubie . axis > 0`; inside, cubie and face are turned alike; valid stickers stay valid and never throw |
| Turns.TurnCube | Graphics/RubikAlgebra.cs:164-175 | the new colour outside the layer is the old one; inside it is the old colour at the turned sticker |
| Turns.TurnFourTimes | Graphics/RubikAlgebra.cs:146-162 | four turns send every valid sticker back to itself |
| Turns.TurnInjective | Graphics/RubikAlgebra.cs:146-162 | a turn is injective on valid stickers |
| Turns.TurnCubeAt | Graphics/RubikAlgebra.cs:172 | pull-back: the new colour at `s` is the old colour at `Turn(s)` |
| Turns.TurnCubeMovesColours | Graphics/RubikAlgebra.cs:166-174 | every colour of a turned state was shown by the old state at a valid sticker |
| Turns.FourTurnsRestore | Graphics/RubikAlgebra.cs:164-175 | four turns about one axis restore every valid sticker's colour |
| Turns.ApplyThreeTurns | Graphics/RubikAlgebra.cs:139-144 | applying the three axes of `Inverse` is three turns in a row |
| Turns.InverseUndoesTurn | Graphics/RubikAlgebra.cs:139-144 | a turn followed by its `Inverse` restores every valid sticker's colour |
| Turns.TurnCornerExample | Graphics/RubikAlgebra.cs:153-157 | turning +Z moves corner sticker (+,+,+):+Z to (-,+,+):+Z, and it starts blue |
| Walks.AddUnitFits | Graphics/RubikAlgebra.cs:186 | stepping by `d` from a cubie with `cubie . d <= 0` stays on the lattice, adds one along `d` and keeps the other offsets |
| Walks.StepInsideFace | Graphics/RubikAlgebra.cs:186-188 | a step inside the face lands on a valid sticker |
| Walks.DirectionOk | Graphics/RubikAlgebra.cs:237-242 | `Check(face, direction)`: a unit direction perpendicular to the face |
| Walks.Neighbour | Graphics/RubikAlgebra.cs:177-189 | throws exactly when the direction fails `Check`; from a valid sticker the neighbour is a valid sticker |
| Walks.ReOrient | Graphics/RubikAlgebra.cs:191-201 | defined exactly when `Check` passes; the new direction is a valid direction on the neighbour |
| Walks.PowerKeepsDirection | Graphics/RubikAlgebra.cs:205 | any power of the face rotation keeps a direction's length and its component along the face |
| Walks.PowerMultipleOfFour | Graphics/RubikAlgebra.cs:205 | a multiple of four turns about a unit axis is the identity |
| Walks.ReOrientTurn | Graphics/RubikAlgebra.cs:203-206 | zero turns (any multiple of four) keep the direction, and a valid direction stays valid |
| Walks.Step | Graphics/RubikAlgebra.cs:210-218 | one step from the surface stays on the surface; a failed `Check` throws |
| Walks.Walk | Graphics/RubikAlgebra.cs:210-218 | the loop of `Follow` as a recursive function; `Walks.Follow` is proved equal to it |
| Walks.WalkStaysOnSurface | Graphics/RubikAlgebra.cs:208-221 | a walk that starts on the surface never throws and stays on it |
| Walks.WalkAppend | Graphics/RubikAlgebra.cs:210-218 | walking `a + b` is walking `a`, then `b` |
| Walks.StepCorner | Graphics/RubikAlgebra.cs:181-183 | past the cubie's edge: same cubie, face `d`, heading against the old face |
| Walks.StepAlong | Graphics/RubikAlgebra.cs:186-188 | inside the face: next cubie along `d`, same face, same heading |
| Walks.QuarterFrame | Graphics/RubikAlgebra.cs:177-201 | the quarter turn about `face x d` sends the face to `d` and `d` to `-face` |
| Walks.QuarterCubieAtEdge | Graphics/RubikAlgebra.cs:177-201 | for a cubie at the edge ahead, the quarter turn moves it as three steps do |
| Walks.QuarterCubieAtMiddle | Graphics/RubikAlgebra.cs:177-201 | the same, for a cubie in the middle row |
| Walks.QuarterCubieAtBack | Graphics/RubikAlgebra.cs:177-201 | the same, for a cubie at the far edge |
| Walks.WalkThree | Graphics/RubikAlgebra.cs:210-218 | three successful steps make a three-step walk |
| Walks.QuarterWalk | Graphics/RubikAlgebra.cs:177-221 | three steps from an outer sticker turn the whole walker a quarter turn about `face x d` |
| Walks.TurnedWalkerOnSurface | Graphics/RubikAlgebra.cs:177-201 | a turned walker stays on the surface with the same `cubie . face` |
| Walks.QuarterKeepsAxis | Graphics/RubikAlgebra.cs:177-221 | after a quarter of the loop the walker is on the outside and turns about the same axis |
| Walks.LoopTurnsAreZero | Graphics/RubikAlgebra.cs:225 | `Loop` passes twelve zero turns |
| Walks.QuarterOfLoop | Graphics/RubikAlgebra.cs:223-226 | each quarter of the loop is a quarter turn of the walker |
| Walks.LoopClosesOn | Graphics/RubikAlgebra.cs:223-226 | four quarters bring the walker back |
| Walks.LoopCloses | Graphics/RubikAlgebra.cs:223-226 | from every outer sticker in every direction along its face, the twelve-step loop returns to the same sticker and heading |
| Walks.LoopNeedsOuterSticker | Graphics/RubikAlgebra.cs:223-226 | from a valid sticker facing into the cube the loop ends on a different sticker |
| Walks.LoopOfQuarters | Graphics/RubikAlgebra.cs:210-218 | four chained three-step walks make one twelve-step walk |
| Walks.Follow | Graphics/RubikAlgebra.cs:208-221 | the loop ends where the walk ends; from the surface it ends on a valid sticker |
| Walks.Loop | Graphics/RubikAlgebra.cs:223-226 | `Follow` with twelve zero turns; from every outer sticker it returns that sticker |
| Runs.RunAppend | Graphics/RubikAlgebra.cs:210-218 | running `a + b` is running `a`, then `b` |
| Runs.RunFour | Graphics/RubikAlgebra.cs:210-218 | four chained runs of `q` make one run of `q + q + q + q` |
| Enumerations.SignValuesIndex | Graphics/Program.cs:524 | `Enum.GetValues(typeof(Sign))` lists each sign once, at its `ValuePosition`, in increasing unsigned value: Zero, Positive, Negative |
| Enumerations.UnsignedValue | Graphics/Program.cs:524 | a sign's integer read as unsigned 32-bit: itself when non-negative, plus 2^32 when negative |
| Enumerations.ValuePosition | Graphics/Program.cs:524 | every sign has a position below 3 in `Enum.GetValues(typeof(Sign))` |
| Enumerations.PlaneAt | Graphics/Program.cs:525-531 | position `3b + c` of the plane for x is `(x, b-th sign, c-th sign)`, signs in the order Zero, Positive, Negative |
| Enumerations.AllArrowsAt | Graphics/Program.cs:522-532 | position `9a + 3b + c` holds the a-th, b-th and c-th signs of Zero, Positive, Negative; position 0 is (0, 0, 0) |
| Enumerations.AllArrows | Graphics/Program.cs:522-532 | the enumeration has 27 arrows |
| Enumerations.IndexOf | Graphics/Program.cs:522-532 | an arrow's position in the enumeration is below 27 |
| Enumerations.AllArrowsBijective | Graphics/Program.cs:522-532 | every sign triple occurs exactly once, at `IndexOf` |
| Enumerations.Arrows | Graphics/Program.cs:522-532 | the three nested loops yield the 27 arrows, x outermost, then y, then z, each running Zero, Positive, Negative |
| Enumerations.UnitsMembers | Graphics/Program.cs:519 | the filter keeps exactly the unit arrows of its input |
| Enumerations.UnitsAppend | Graphics/Program.cs:519 | the filter distributes over concatenation |
| Enumerations.UnitsOfRow | Graphics/Program.cs:519 | the unit arrows of one row: +Z then -Z on the z axis row, one arrow on a row with one zero among x, y, none otherwise |
| Enumerations.UnitsOfPlane | Graphics/Program.cs:519 | the unit arrows of one plane, rows taken in the order Zero, Positive, Negative |
| Enumerations.UnitsOfPlanes | Graphics/Program.cs:517-520 | the unit arrows of the three planes are +Z, -Z, +Y, -Y, +X, -X |
| Enumerations.BasisValue | Graphics/Program.cs:517-520 | `Basis()` is the six unit arrows in enumeration order, +Z, -Z, +Y, -Y, +X, -X |
| Enumerations.Basis | Graphics/Program.cs:517-520 | the arrows of the enumeration with `Dot(a, a) == 1`, in order; pinned by `BasisValue` and `BasisIsUnits` |
| Enumerations.BasisIsUnits | Graphics/Program.cs:517-520 | an arrow is in `Basis()` exactly when `Dot(a, a) == 1` |
| Enumerations.Directions | Graphics/Program.cs:534-541 | the loop yields X, -X, Y, -Y, Z, -Z |
| Enumerations.DirectionsAreBasis | Graphics/Program.cs:517-541 | `Directions()` and `Basis()` hold the same six arrows, in different orders |
| MainChecks.CountNonZeroAxes | Graphics/Program.cs:22-34 | the number of axes along which an arrow is non-zero is its squared length, at most 3 |
| MainChecks.EveryLoopCloses | Graphics/Program.cs:421-428 | every sticker of the first check is accepted, and its loop in every perpendicular basis direction returns to it |
| MainChecks.UnitKeepsMagnitude | Graphics/Program.cs:435-439 | rotating by a unit axis multiplies the squared length by the axis's |
| MainChecks.RotationKeepsMagnitude | Graphics/Program.cs:432-447 | for every arrow and basis axis, `first.Magnitude() * second.Magnitude() == cross.Magnitude()` holds |
| MainChecks.FourRotationsAreIdentity | Graphics/Program.cs:451-457 | for every basis face, `Rotate().Power(4)` gives back every arrow |
| MainChecks.FacesShownCount | Graphics/Program.cs:463 | a cubie shows one basis face per non-zero component |
| MainChecks.VisibleAppend | Graphics/Program.cs:461-469 | the sticker count adds over concatenated cubie lists |
| MainChecks.VisibleRow | Graphics/Program.cs:461-469 | the sticker count of one row of the enumeration |
| MainChecks.VisiblePlane | Graphics/Program.cs:461-469 | the sticker count of one plane of the enumeration |
| MainChecks.VisibleOfPlanes | Graphics/Program.cs:461-469 | the three planes show 54 stickers |
| MainChecks.VisibleStickers | Graphics/Program.cs:461-469 | the 27 arrows show 54 stickers against the basis |
| MainChecks.FacesShownSnoc | Graphics/Program.cs:463-467 | one more face adds one exactly when the cubie shows it |
| MainChecks.VisibleSnoc | Graphics/Program.cs:462-467 | one more cubie adds the faces it shows |
| MainChecks.CountVisible | Graphics/Program.cs:461-467 | the nested loops count exactly the visible stickers of any cubie and face lists |
| MainChecks.CountVisibleStickers | Graphics/Program.cs:461-469 | the counting loop computes the visible-sticker count, which is 54 |
| MainChecks.StepWithoutTurn | Graphics/Program.cs:504-509 | a step with no turn is the plain `Neighbour` and `ReOrient` pair |
| MainChecks.FollowDirections | Graphics/Program.cs:500-515 | takes the same walk as `Loop`, so from an outer sticker it returns that sticker |
| Polygons.Triangle | Graphics/Program.cs:403-408 | one triangle of the fan is six items |
| Polygons.Fan | Graphics/Program.cs:401-409 | the first k triangles make `6 k` items |
| Polygons.FanShape | Graphics/Program.cs:401-409 | item `6 i + j` of the fan is item j of triangle i |
| Polygons.FanIsFan | Graphics/Program.cs:401-409 | triangle i is `v[0], color, v[i+1], color, v[i+2], color` |
| Polygons.EnumeratePolygon | Graphics/Program.cs:394-410 | throws exactly for fewer than 3 vertices; otherwise the fan of `n - 2` triangles, `6 (n - 2)` items |
| Polygons.CornerProjection | Graphics/Program.cs:359 | the cast `(Sign)direction.Dot(corner)` is in range, and removing the projection stays on the lattice |
| Polygons.FirstVertex | Graphics/Program.cs:357-361 | the first square vertex lies in the face's plane with two non-zero components |
| Polygons.CornerStep | Graphics/Program.cs:365 | each cross product is the quarter turn and gives a new corner of the square |
| Polygons.NegateDistinct | Graphics/Program.cs:365-373 | the opposite corner differs from the two corners next to it |
| Polygons.SquareCorners | Graphics/Program.cs:365-373 | the four corners are distinct, in the face's plane, and a fourth cross product closes the square |
| Polygons.SquareVertices | Graphics/Program.cs:355-376 | the square has four vertices |
| Polygons.SquareVerticesShape | Graphics/Program.cs:355-376 | the four vertices are distinct corners of the face's plane, and one more cross product returns to the first |

## Left out

- Direct3D, SharpDX, the window, shaders, buffers, the render loop and
  resizing (Graphics/Program.cs:36-256). These are I/O and foreign library
  calls.
- Keyboard handling (`DetectUserRotation`, `DetectUserTurn` and the key
  lambdas). This is UI event wiring.
- Console output and `ReadLine` in `Main`, `Main2` and `FollowDirections`.
  Only the computed values are modelled.
- The last loop of `Main2` (Graphics/Program.cs:484-495). It only prints.
- `Matrices()`. It is only referenced from commented-out code.
- Floating-point and vector conversions: `AsVector`, `AsColor`, the
  `Vector4` output of `SquareVertices`, `CubeFaceVertices`,
  `EnumerateCube` and `EnumerateRubix`, and the `Matrix` rotation.
  `EnumeratePolygon` is generic in its item type. `SquareVertices` is
  modelled on arrows, before the scaling and offset.
- Polygons.SquareVertices: modelled only for unit directions, the only
  ones the program passes (`Directions()`).
- `Magnitude()` is a floating-point square root. The model works with the
  squared length. The comparison in `Main2` holds for the squares exactly
  when it holds for the roots.
- Arrow `Add` and `Cross` beyond ±1. This model does not define what
  happens to a component sum outside -1..1. `Add` and `Cross` here require
  every component sum to stay in -1..1. Every call site in the core meets this, as
  `Walks.AddUnitFits`, `ArrowAlgebra.UnitCrossFits` and
  `Polygons.CornerProjection` prove.
- The `Colors` default value is not modelled.
  `Stickers.RubikCube2.constructor` takes the default colour as a
  parameter.
- Iterator laziness. `Arrows`, `Directions`, `Inverse` and
  `EnumeratePolygon` yield lazily, so `EnumeratePolygon`'s exception
  surfaces only when the result is first enumerated. The model returns
  whole sequences and reports the exception as `None` up front.
- Exceptions are modelled as `None` without their messages.
- ArrowAlgebra.Rotate: requires a unit axis. This model does not define
  rotation about other arrows; the core never rotates about one.
- Walks.ReOrientTurn: requires the sticker's face to be a unit arrow, which
  `Follow` guarantees because it only re-orients on a sticker that
  `Neighbour` has just validated.
