/** The finger-joint generator: an edge is cut into `fingerCount` equal
    pieces, the pieces are pushed alternately to one side and the other of
    the edge ("fingers"), and a segment runs from the start of each finger
    after the first back to the end of the finger before it ("connectors").

    The edge's Euclidean length and the scaled perpendicular offset both
    need a square root in the C# `MyFingerJoint` component, so they enter
    the model as inputs: `length` is the edge's length and `perp` is the
    offset vector the generator adds to even fingers and subtracts from odd
    ones. */
module FingerJoint {
  import opened Geometry

  /** Range of the 32-bit signed integer the finger count is cast to. */
  const IntMin: int := -0x8000_0000
  const IntMax: int := 0x7FFF_FFFF

  /** Why no joint is produced. */
  datatype JointError =
    /** Width zero: the quotient is an infinity or NaN, whose cast to an
        integer has no specified value. */
    | ZeroFingerWidth
    /** The truncated quotient does not fit the 32-bit count. */
    | CountOutOfRange
    /** The count is below one: the finger loop runs zero times and the
        removal of the first start point fails on an empty list. */
    | NoFingers

  datatype Result<T> = Ok(value: T) | Err(error: JointError)

  /** The two lists the generator builds. */
  datatype Joint = Joint(fingers: seq<Seg>, connectors: seq<Seg>)

  /** Conversion of a real to an integer by dropping its fraction, i.e.
      rounding toward zero, as a cast from floating point to integer does. */
  function Truncate(x: real): (r: int)
    ensures 0.0 <= x ==> 0 <= r && r as real <= x < r as real + 1.0
    ensures x < 0.0 ==> r <= 0 && r as real - 1.0 < x <= r as real
  {
    if 0.0 <= x then x.Floor else -((-x).Floor)
  }

  /** The number of fingers: `length / fingerWidth` truncated to a 32-bit
      integer. */
  function FingerCount(length: real, fingerWidth: real): (r: Result<int>)
    requires 0.0 <= length
    ensures fingerWidth == 0.0 ==> r == Err(ZeroFingerWidth)
    ensures r.Ok? ==> IntMin <= r.value <= IntMax
    ensures r.Err? ==> r.error != NoFingers
    ensures fingerWidth != 0.0 && IntMin <= Truncate(length / fingerWidth) <= IntMax ==>
              r.Ok?
    // for a positive width, the count is how many whole widths fit in the length
    ensures r.Ok? && 0.0 < fingerWidth ==>
              0 <= r.value
              && (r.value as real) * fingerWidth <= length
              && length < (r.value as real + 1.0) * fingerWidth
    ensures r.Ok? && fingerWidth < 0.0 ==>
              && r.value <= 0
              && r.value as real - 1.0 < length / fingerWidth <= r.value as real
    ensures fingerWidth != 0.0 && !(IntMin <= Truncate(length / fingerWidth) <= IntMax) ==>
              r == Err(CountOutOfRange)
  {
    if fingerWidth == 0.0 then Err(ZeroFingerWidth)
    else
      var n := Truncate(length / fingerWidth);
      if n < IntMin || IntMax < n then Err(CountOutOfRange)
      else
        if 0.0 < fingerWidth then
          WholeWidthsFit(length, fingerWidth, n);
          Ok(n)
        else
          Ok(n)
  }

  /** From `n <= length / w < n + 1` to `n * w <= length < (n + 1) * w`. */
  lemma WholeWidthsFit(length: real, w: real, n: int)
    requires 0.0 < w && 0.0 <= length
    requires n as real <= length / w < n as real + 1.0
    ensures (n as real) * w <= length < (n as real + 1.0) * w
  {
    var q := length / w;
    assert q * w == length;
    assert (n as real) * w <= q * w;
    var gap := (n as real + 1.0) - q;
    assert 0.0 < gap;
    assert 0.0 < gap * w;
    assert (n as real + 1.0) * w == q * w + gap * w;
    assert length < (n as real + 1.0) * w;
  }

  /** The parameter of the `i`-th piece boundary along the edge, computed
      as the C# `MyFingerJoint` component does:
      `i * actualFingerWidth / length`. */
  function BoundaryParam(i: int, actualFingerWidth: real, length: real): real
    requires 0.0 < length
  {
    (i as real) * actualFingerWidth / length
  }

  /** The `i`-th untranslated piece of the edge when it is cut into `n`
      pieces of width `length / n`. */
  function BasePiece(edge: Seg, n: int, length: real, i: int): Seg
    requires 1 <= n && 0.0 < length
  {
    var actualFingerWidth := length / (n as real);
    Seg(PointAt(edge, BoundaryParam(i, actualFingerWidth, length)),
        PointAt(edge, BoundaryParam(i + 1, actualFingerWidth, length)))
  }

  /** The offset of finger `i`: a projection (`+perp`) at even indices and
      a notch (`-perp`) at odd ones. */
  function Offset(perp: Vec, i: int): Vec {
    if i % 2 == 0 then perp else Neg(perp)
  }

  /** Finger `i`: base piece `i` moved by its offset. */
  function FingerAt(edge: Seg, n: int, length: real, perp: Vec, i: int): Seg
    requires 1 <= n && 0.0 < length
  {
    Translate(BasePiece(edge, n, length, i), Offset(perp, i))
  }

  /** All `n` fingers in generation order. */
  function Fingers(edge: Seg, n: int, length: real, perp: Vec): seq<Seg>
    requires 1 <= n && 0.0 < length
  {
    seq(n, i requires 0 <= i < n => FingerAt(edge, n, length, perp, i))
  }

  /** The start points of the segments, in order. */
  function Starts(fs: seq<Seg>): seq<Point>
  {
    seq(|fs|, i requires 0 <= i < |fs| => fs[i].from)
  }

  /** The end points of the segments, in order. */
  function Ends(fs: seq<Seg>): seq<Point>
  {
    seq(|fs|, i requires 0 <= i < |fs| => fs[i].to)
  }

  /** Segments joining equal-index points of two lists of the same length. */
  function Pair(tops: seq<Point>, bottoms: seq<Point>): seq<Seg>
    requires |tops| == |bottoms|
  {
    seq(|tops|, i requires 0 <= i < |tops| => Seg(tops[i], bottoms[i]))
  }

  /** The connectors: drop the first start point and the last end point,
      then join the remaining lists index by index. */
  function Connectors(fs: seq<Seg>): (cs: seq<Seg>)
    requires 1 <= |fs|
    ensures |cs| == |fs| - 1
  {
    Pair(Starts(fs)[1..], Ends(fs)[..|fs| - 1])
  }

  /** The generator as a function of its inputs. */
  function Generate(edge: Seg, length: real, fingerWidth: real, perp: Vec)
    : (r: Result<Joint>)
    requires 0.0 <= length
    ensures r.Ok? <==> fingerWidth != 0.0 && 1 <= Truncate(length / fingerWidth) <= IntMax
    ensures r.Ok? ==> |r.value.fingers| == Truncate(length / fingerWidth)
    ensures r.Ok? ==> |r.value.connectors| == |r.value.fingers| - 1
    ensures fingerWidth == 0.0 ==> r == Err(ZeroFingerWidth)
    ensures fingerWidth != 0.0 && IntMin <= Truncate(length / fingerWidth) < 1 ==>
              r == Err(NoFingers)
    ensures fingerWidth != 0.0 && !(IntMin <= Truncate(length / fingerWidth) <= IntMax) ==>
              r == Err(CountOutOfRange)
  {
    match FingerCount(length, fingerWidth)
    case Err(e) => Err(e)
    case Ok(n) =>
      if n < 1 then Err(NoFingers)
      else
        assert 0.0 < length by { PositiveCountNeedsLength(length, fingerWidth, n); }
        var fs := Fingers(edge, n, length, perp);
        Ok(Joint(fs, Connectors(fs)))
  }

  /** A count of one or more fingers needs a non-zero length. */
  lemma PositiveCountNeedsLength(length: real, fingerWidth: real, n: int)
    requires 0.0 <= length && fingerWidth != 0.0
    requires n == Truncate(length / fingerWidth) && 1 <= n
    ensures 0.0 < length
  {
  }

  /** The published output: all fingers, then all connectors. */
  function Publish(j: Joint): (out: seq<Seg>)
    ensures |out| == |j.fingers| + |j.connectors|
    ensures forall k :: 0 <= k < |j.fingers| ==> out[k] == j.fingers[k]
    ensures forall k :: 0 <= k < |j.connectors| ==>
              out[|j.fingers| + k] == j.connectors[k]
  {
    j.fingers + j.connectors
  }

  /** One solve: generate the joint and publish it. */
  function Solve(edge: Seg, length: real, fingerWidth: real, perp: Vec)
    : (r: Result<seq<Seg>>)
    requires 0.0 <= length
    ensures r.Ok? <==> Generate(edge, length, fingerWidth, perp).Ok?
    ensures r.Ok? ==> |r.value| == 2 * Truncate(length / fingerWidth) - 1
  {
    match Generate(edge, length, fingerWidth, perp)
    case Err(e) => Err(e)
    case Ok(j) => Ok(Publish(j))
  }

  /** The generator step by step as the C# `MyFingerJoint` component runs
      it: the finger loop, removal of the first start point and the last end
      point, then the connector loop. */
  method GenerateFingerJoints(edge: Seg, length: real, fingerWidth: real, perp: Vec)
    returns (r: Result<Joint>)
    requires 0.0 <= length
    ensures r == Generate(edge, length, fingerWidth, perp)
  {
    var count := FingerCount(length, fingerWidth);
    if count.Err? {
      return Err(count.error);
    }
    var fingerCount := count.value;
    // With a zero count the division yields an infinity or NaN in floating
    // point; the finger loop then runs zero times and never reads it.
    var actualFingerWidth :=
      if fingerCount != 0 then length / (fingerCount as real) else 0.0;
    if 1 <= fingerCount {
      PositiveCountNeedsLength(length, fingerWidth, fingerCount);
    }

    var fingers, topPoints, bottomPoints :=
      FingerLoop(edge, length, perp, fingerCount, actualFingerWidth);
    if |topPoints| == 0 {
      // removing the first element of an empty list fails
      return Err(NoFingers);
    }
    topPoints := topPoints[1..];
    bottomPoints := bottomPoints[..|bottomPoints| - 1];
    var connectors := ConnectorLoop(topPoints, bottomPoints);
    r := Ok(Joint(fingers, connectors));
  }

  /** The finger loop: for each index below the count, cut the next piece
      from the edge, move it by the alternating offset, and record it with
      its start and end point. A count below one runs the loop zero times. */
  method FingerLoop(edge: Seg, length: real, perp: Vec, fingerCount: int,
                    actualFingerWidth: real)
    returns (fingers: seq<Seg>, topPoints: seq<Point>, bottomPoints: seq<Point>)
    requires 1 <= fingerCount ==>
               0.0 < length && actualFingerWidth == length / (fingerCount as real)
    ensures fingerCount < 1 ==> fingers == [] && topPoints == [] && bottomPoints == []
    ensures 1 <= fingerCount ==> fingers == Fingers(edge, fingerCount, length, perp)
    ensures topPoints == Starts(fingers) && bottomPoints == Ends(fingers)
  {
    fingers, topPoints, bottomPoints := [], [], [];
    var i := 0;
    while i < fingerCount
      invariant 0 <= i && (1 <= fingerCount ==> i <= fingerCount)
      invariant fingerCount < 1 ==> i == 0
      invariant |fingers| == i && |topPoints| == i && |bottomPoints| == i
      invariant forall k :: 0 <= k < i ==>
                  fingers[k] == FingerAt(edge, fingerCount, length, perp, k)
      invariant forall k :: 0 <= k < i ==> topPoints[k] == fingers[k].from
      invariant forall k :: 0 <= k < i ==> bottomPoints[k] == fingers[k].to
    {
      var t1 := (i as real) * actualFingerWidth / length;
      var t2 := ((i + 1) as real) * actualFingerWidth / length;
      var finger := Seg(PointAt(edge, t1), PointAt(edge, t2));
      assert finger == BasePiece(edge, fingerCount, length, i) by {
        assert t1 == BoundaryParam(i, actualFingerWidth, length);
        assert t2 == BoundaryParam(i + 1, actualFingerWidth, length);
      }
      if i % 2 == 0 {
        finger := Translate(finger, perp);
      } else {
        finger := Translate(finger, Neg(perp));
      }
      assert finger == FingerAt(edge, fingerCount, length, perp, i);
      fingers := fingers + [finger];
      topPoints := topPoints + [finger.from];
      bottomPoints := bottomPoints + [finger.to];
      i := i + 1;
    }
  }

  /** The connector loop: one segment from each remaining start point to
      the end point at the same index. */
  method ConnectorLoop(topPoints: seq<Point>, bottomPoints: seq<Point>)
    returns (connectors: seq<Seg>)
    requires |topPoints| == |bottomPoints|
    ensures connectors == Pair(topPoints, bottomPoints)
  {
    connectors := [];
    var j := 0;
    while j < |topPoints|
      invariant j <= |topPoints|
      invariant |connectors| == j
      invariant forall k :: 0 <= k < j ==>
                  connectors[k] == Seg(topPoints[k], bottomPoints[k])
    {
      connectors := connectors + [Seg(topPoints[j], bottomPoints[j])];
      j := j + 1;
    }
  }
}
