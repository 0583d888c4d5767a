# Finger-joint generator, modelled in Dafny

The `MyFingerJoint` component takes a straight edge, a finger width and an
offset distance, and draws a finger-joint profile along the edge:

- The edge is cut into `fingerCount = (int)(length / fingerWidth)` equal
  pieces.
- Even pieces are pushed to one side of the edge (projections) and odd
  pieces to the other (notches), by a vector perpendicular to the edge and
  to the world Z axis.
- Connector i runs from the start of finger i+1 back to the end of finger
  i.
- The component publishes the fingers, followed by the connectors, as one
  list.

The model has three modules:

- `Geometry` (`geometry.dfy`): points, vectors and segments over exact
  reals, with linear interpolation, translation, and dot and cross
  products. It also has the small vector facts the other proofs need.
- `FingerJoint` (`finger_joint.dfy`):
  - the finger count, as a truncating cast into a 32-bit integer;
  - the pure reference definition `Generate`, built from the uniform pieces
    of the edge;
  - `Solve`, the publication of the result;
  - the method `GenerateFingerJoints`, which runs the two loops and the two
    list removals step by step as the C# `MyFingerJoint` component does. It
    is proved to return exactly what `Generate` returns.
- `FingerJointProperties` (`finger_joint_properties.dfy`): what a generated
  joint looks like. It covers when inputs are accepted, the uniform tiling
  of the edge, the alternation of the fingers, where connectors run, and
  the order of the published list.

Two quantities need a square root in the C# `MyFingerJoint` component, so
they are inputs of the model:

- `length`: the edge's Euclidean length (`edge.Length`). The lemma
  `PieceWidthFits` relates it to the edge through `IsLengthOf`.
- `perp`: the unitised cross product scaled by the offset distance (lines
  74-77). The lemma `ConnectorsPerpendicularToEdge` assumes it is a
  multiple of `Direction(edge) x Z`, as those lines make it.

Failures that the C# `MyFingerJoint` component leaves to the runtime become
values of `JointError`:

- `ZeroFingerWidth`: the width is zero, so the quotient is infinite or NaN
  and its cast to an integer has no specified value.
- `CountOutOfRange`: the truncated quotient does not fit in an `int`.
- `NoFingers`: the count is below one. The finger loop then runs zero times
  and `topPoints.RemoveAt(0)` fails on the empty list (line 109).

## Model

| member | source | states |
|---|---|---|
| FingerJoint.Truncate | MyFingerJoint.cs:70 | The cast drops the fraction toward zero. A non-negative x gives the largest integer not above x. A negative x gives the smallest integer not below x. |
| FingerJoint.FingerCount | MyFingerJoint.cs:70 | A zero width is an error. A quotient whose truncation does not fit in 32 bits is an error. Otherwise the count is accepted and lies in the 32-bit range. For a positive width it is the number of whole widths that fit in the length (`n*w <= length < (n+1)*w`). For a negative width it is the quotient rounded toward zero, so at most zero. |
| FingerJoint.Generate | MyFingerJoint.cs:64-121 | A joint is produced exactly when the width is non-zero and the truncated quotient is between 1 and the 32-bit maximum. There are then that many fingers and one connector fewer. A truncated count from the 32-bit minimum to zero fails because the first start point cannot be removed; a zero width and an out-of-range count fail with their own errors. |
| FingerJoint.GenerateFingerJoints | MyFingerJoint.cs:64-121 | The step-by-step generator returns exactly `Generate`'s result for every input, the failing ones included. |
| FingerJoint.FingerLoop | MyFingerJoint.cs:82-108 | With a count of at least one, the loop yields finger i = piece i moved by the alternating offset, for each i below the count. It records each finger's start in the top list and its end in the bottom list. A count below one yields three empty lists. |
| FingerJoint.Connectors | MyFingerJoint.cs:109-117 | Dropping the first start point and the last end point leaves two lists of equal length, and there is one connector fewer than fingers. |
| FingerJoint.ConnectorLoop | MyFingerJoint.cs:113-117 | Connector i joins top point i to bottom point i, for every index of the top list. |
| FingerJoint.Publish | MyFingerJoint.cs:56-58 | The output holds every finger at its own index, then every connector after the fingers, and nothing else. |
| FingerJoint.Solve | MyFingerJoint.cs:54-58 | Output is published exactly when the generator succeeds. The published list then holds `2 * count - 1` curves. |
| FingerJointProperties.CountIsFloorOfQuotient | MyFingerJoint.cs:70 | For a positive width the number of fingers is the floor of `length / width`. |
| FingerJointProperties.AcceptedWidths | MyFingerJoint.cs:70-110 | A positive width whose quotient fits in 32 bits is accepted exactly when it does not exceed the edge's length. |
| FingerJointProperties.NegativeWidthRejected | MyFingerJoint.cs:70-110 | A negative width never produces a joint. |
| FingerJointProperties.BoundaryParamIsUniform | MyFingerJoint.cs:71-86 | The parameter `i * (length / n) / length` used for piece boundaries equals `i / n`, so the edge is cut uniformly. |
| FingerJointProperties.BasePiecesTile | MyFingerJoint.cs:85-91 | The untranslated pieces tile the edge. The first starts at the edge's start, each ends where the next begins, and the last ends at the edge's end. Each piece spans `1/n` of the edge's direction. |
| FingerJointProperties.BasePieceSpan | MyFingerJoint.cs:85-91 | Piece i runs from the edge point at parameter `i/n` to the one at `(i+1)/n`. |
| FingerJointProperties.PieceWidthFits | MyFingerJoint.cs:68-71 | If `length` is the edge's Euclidean length, each piece is `length / n` long, and n such widths add up to the length. |
| FingerJointProperties.FingersAlternate | MyFingerJoint.cs:88-101 | Each end of finger i lies at the matching uniform point of the edge plus `+perp` for even i, or `-perp` for odd i. |
| FingerJointProperties.ProfileEnds | MyFingerJoint.cs:88-101 | The first finger starts at the edge's start plus `perp`. The last finger ends at the edge's end plus `+perp` or `-perp`, depending on the parity of the count. |
| FingerJointProperties.ConnectorsJoinAdjacentFingers | MyFingerJoint.cs:106-116 | Connector i runs from the start of finger i+1 to the end of finger i. |
| FingerJointProperties.ConnectorSpansTwiceOffset | MyFingerJoint.cs:94-115 | Connector i's direction is `+2 perp` for even i and `-2 perp` for odd i, because adjacent fingers share a base point and have opposite offsets. |
| FingerJointProperties.ConnectorsPerpendicularToEdge | MyFingerJoint.cs:74-77 | When `perp` is a multiple of `edge direction x Z`, every connector is perpendicular to the edge. |
| FingerJointProperties.SolvePublishesFingersThenConnectors | MyFingerJoint.cs:56-58 | The published list's prefix is the finger list and its suffix is the connector list. |
| FingerJointProperties.OffsetAlternates | MyFingerJoint.cs:94-101 | Consecutive fingers get opposite offsets. The `+perp` branch is taken exactly when i is even. |
| Geometry.PointAtEnds | MyFingerJoint.cs:88-89 | Interpolating the edge at parameter 0 gives its start, and at parameter 1 gives its end. |
| Geometry.TranslateRigid | MyFingerJoint.cs:94-101 | A translation moves both ends of a finger by the same vector and keeps its direction. |
| Geometry.CrossOrthogonal | MyFingerJoint.cs:75 | The cross product of the edge direction with Z is orthogonal to the edge direction. |

`BoundaryParam` (lines 85-86), `BasePiece` (lines 85-91), `Offset` (lines
94-101), `FingerAt` and `Fingers` (lines 82-108), and `Starts`, `Ends` and
`Pair` (lines 106-117) are helpers of `Generate` without contracts of their
own. They define the pieces, offsets and lists that the property lemmas
above describe.

## Left out

- The addition and subtraction components (`MyAdditionComponent.cs`,
  `MySubtraction.cs`) and `MyAdditionInfo.cs` are separate components and
  are not part of this model.
- Host plumbing is not modelled: parameter registration, reading inputs
  through `DA.GetData` and the early returns when an input is missing,
  `DA.SetDataList`, the icon and the component id (lines 14-51, 60,
  123-142). The published list is the value `Solve` returns.
- `ToNurbsCurve` (lines 103, 116) is not modelled. A finger or connector is
  kept as the segment it was built from. A zero-length segment has no NURBS
  form: when `perp` is zero (a zero offset distance, or an edge parallel to
  Z), every connector has zero length (`ConnectorSpansTwiceOffset`), so the
  C# component publishes null in place of each connector. The model keeps
  the degenerate segment.
- `edge.Length` and `Unitize` need a square root, so `length` and `perp` are
  inputs. If the edge is parallel to Z, the cross product is zero and
  `Unitize` fails silently, leaving a zero offset. The model takes any
  `perp`, including zero, and so does not tell that case apart.
- Floating point is not modelled: coordinates and parameters are exact
  reals. The cast of an infinite, NaN or out-of-range quotient has no
  specified result, so it becomes the error `ZeroFingerWidth` or
  `CountOutOfRange`.
- The exception `RemoveAt` raises for a count below one is the error value
  `NoFingers`. The component's runtime reporting of that exception is not
  modelled.
- The code has no dedicated error for a width above the length or for an
  edge parallel to Z. The first gives a count of zero, hence `NoFingers`.
  The second goes on with whatever `perp` is.
