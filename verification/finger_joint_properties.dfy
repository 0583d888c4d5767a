/** What the finger-joint generator guarantees: when it accepts its inputs,
    how many fingers and connectors it makes, where each finger lies,
    which endpoints each connector joins, and the shape of the published
    list. */
module FingerJointProperties {
  import opened Geometry
  import opened FingerJoint

  /** The parameter `i * (length / n) / length` the generator computes for
      a piece boundary is exactly `i / n`: the edge is cut uniformly. */
  lemma BoundaryParamIsUniform(i: int, n: int, length: real)
    requires 1 <= n && 0.0 < length
    ensures BoundaryParam(i, length / (n as real), length) == (i as real) / (n as real)
  {
    assert (length / (n as real)) * (n as real) == length;
  }

  /** For a positive width the count is the floor of `length / width`. */
  lemma CountIsFloorOfQuotient(edge: Seg, length: real, fingerWidth: real, perp: Vec)
    requires 0.0 <= length && 0.0 < fingerWidth
    requires Generate(edge, length, fingerWidth, perp).Ok?
    ensures |Generate(edge, length, fingerWidth, perp).value.fingers|
            == (length / fingerWidth).Floor
  {
  }

  /** A positive width whose quotient fits the 32-bit count is accepted
      exactly when it does not exceed the length. */
  lemma AcceptedWidths(edge: Seg, length: real, fingerWidth: real, perp: Vec)
    requires 0.0 <= length && 0.0 < fingerWidth
    requires length / fingerWidth < (IntMax + 1) as real
    ensures Generate(edge, length, fingerWidth, perp).Ok? <==> fingerWidth <= length
  {
    var q := length / fingerWidth;
    QuotientAtLeastOne(length, fingerWidth);
    assert 1 <= Truncate(q) <==> 1.0 <= q;
  }

  /** A non-negative length divided by a positive width is non-negative, and
      at least one exactly when the width does not exceed the length. */
  lemma QuotientAtLeastOne(length: real, w: real)
    requires 0.0 <= length && 0.0 < w
    ensures 0.0 <= length / w
    ensures 1.0 <= length / w <==> w <= length
  {
    var q := length / w;
    assert q * w == length;
    ScaleMonotone(0.0, q, w);
    ScaleMonotone(1.0, q, w);
    assert (1.0 <= q) == (1.0 * w <= q * w);
    assert (1.0 * w <= q * w) == (w <= length);
  }

  /** Multiplying by a positive factor keeps the order. */
  lemma ScaleMonotone(a: real, b: real, w: real)
    requires 0.0 < w
    ensures a <= b <==> a * w <= b * w
  {
    assert b * w - a * w == (b - a) * w;
  }

  /** A negative width never yields a joint. */
  lemma NegativeWidthRejected(edge: Seg, length: real, fingerWidth: real, perp: Vec)
    requires 0.0 <= length && fingerWidth < 0.0
    ensures Generate(edge, length, fingerWidth, perp).Err?
  {
  }

  /** The untranslated pieces tile the edge: the first starts at the edge's
      start, each ends where the next starts, the last ends at the edge's
      end, and every piece spans the same `1 / n` of the edge. */
  lemma BasePiecesTile(edge: Seg, n: int, length: real)
    requires 1 <= n && 0.0 < length
    ensures BasePiece(edge, n, length, 0).from == edge.from
    ensures forall i :: 0 <= i < n - 1 ==>
              BasePiece(edge, n, length, i).to == BasePiece(edge, n, length, i + 1).from
    ensures BasePiece(edge, n, length, n - 1).to == edge.to
    ensures forall i :: 0 <= i < n ==>
              Direction(BasePiece(edge, n, length, i))
              == Scale(1.0 / (n as real), Direction(edge))
  {
    FirstPieceStartsAtEdgeStart(edge, n, length);
    LastPieceEndsAtEdgeEnd(edge, n, length);
    forall i | 0 <= i < n
      ensures Direction(BasePiece(edge, n, length, i))
              == Scale(1.0 / (n as real), Direction(edge))
    {
      BasePieceSpan(edge, n, length, i);
    }
  }

  lemma FirstPieceStartsAtEdgeStart(edge: Seg, n: int, length: real)
    requires 1 <= n && 0.0 < length
    ensures BasePiece(edge, n, length, 0).from == edge.from
  {
    var w := length / (n as real);
    assert BoundaryParam(0, w, length) == 0.0;
    assert BasePiece(edge, n, length, 0).from == PointAt(edge, 0.0);
    PointAtEnds(edge);
  }

  lemma LastPieceEndsAtEdgeEnd(edge: Seg, n: int, length: real)
    requires 1 <= n && 0.0 < length
    ensures BasePiece(edge, n, length, n - 1).to == edge.to
  {
    var w := length / (n as real);
    BoundaryParamIsUniform(n, n, length);
    assert BoundaryParam(n, w, length) == 1.0;
    assert BasePiece(edge, n, length, n - 1).to == PointAt(edge, 1.0);
    PointAtEnds(edge);
  }

  /** Piece `i` spans the edge from parameter `i / n` to `(i + 1) / n`. */
  lemma BasePieceSpan(edge: Seg, n: int, length: real, i: int)
    requires 1 <= n && 0.0 < length
    ensures BasePiece(edge, n, length, i).from == PointAt(edge, (i as real) / (n as real))
    ensures BasePiece(edge, n, length, i).to == PointAt(edge, ((i + 1) as real) / (n as real))
    ensures Direction(BasePiece(edge, n, length, i))
            == Scale(1.0 / (n as real), Direction(edge))
  {
    BoundaryParamIsUniform(i, n, length);
    BoundaryParamIsUniform(i + 1, n, length);
    var a := (i as real) / (n as real);
    var b := ((i + 1) as real) / (n as real);
    assert b - a == 1.0 / (n as real);
    PointAtChord(edge, a, b);
  }

  /** If `length` is the edge's Euclidean length, every piece is
      `length / n` long and `n` of them add up to the whole length. */
  lemma PieceWidthFits(edge: Seg, n: int, length: real, i: int)
    requires 1 <= n && 0.0 < length && IsLengthOf(edge, length)
    ensures IsLengthOf(BasePiece(edge, n, length, i), length / (n as real))
    ensures (n as real) * (length / (n as real)) == length
  {
    BasePieceSpan(edge, n, length, i);
    var c := 1.0 / (n as real);
    var d := Direction(edge);
    assert Direction(BasePiece(edge, n, length, i)) == Scale(c, d);
    SquaredNormScale(c, d);
    ShareOfLength(n, length);
    ScaledSquare(c, length, Dot(d, d));
  }

  /** One `n`-th of a length is the length scaled by `1/n`, and `n` shares
      make up the whole. */
  lemma ShareOfLength(n: int, length: real)
    requires 1 <= n
    ensures length / (n as real) == (1.0 / (n as real)) * length
    ensures (n as real) * (length / (n as real)) == length
  {
  }

  lemma ScaledSquare(c: real, len: real, sq: real)
    requires sq == len * len
    ensures (c * len) * (c * len) == c * c * sq
  {
  }

  /** Finger `i` is the `i`-th uniform piece of the edge moved by `+perp`
      when `i` is even and by `-perp` when `i` is odd; the alternation starts
      with a projection at index 0. */
  lemma FingersAlternate(edge: Seg, length: real, fingerWidth: real, perp: Vec)
    requires 0.0 <= length
    requires Generate(edge, length, fingerWidth, perp).Ok?
    ensures var fs := Generate(edge, length, fingerWidth, perp).value.fingers;
            var n := |fs| as real;
            forall i :: 0 <= i < |fs| ==>
              && Between(PointAt(edge, (i as real) / n), fs[i].from)
                 == (if i % 2 == 0 then perp else Neg(perp))
              && Between(PointAt(edge, ((i + 1) as real) / n), fs[i].to)
                 == (if i % 2 == 0 then perp else Neg(perp))
  {
    var fs := Generate(edge, length, fingerWidth, perp).value.fingers;
    var n := |fs|;
    assert 0.0 < length by { PositiveCountNeedsLength(length, fingerWidth, n); }
    forall i | 0 <= i < n
      ensures Between(PointAt(edge, (i as real) / (n as real)), fs[i].from)
              == Offset(perp, i)
      ensures Between(PointAt(edge, ((i + 1) as real) / (n as real)), fs[i].to)
              == Offset(perp, i)
    {
      BasePieceSpan(edge, n, length, i);
      TranslateRigid(BasePiece(edge, n, length, i), Offset(perp, i));
    }
  }

  /** Both ends of the profile stay open: the first finger starts one
      offset above the edge's start and the last finger ends one offset
      (of the last finger's sign) beside the edge's end. */
  lemma ProfileEnds(edge: Seg, length: real, fingerWidth: real, perp: Vec)
    requires 0.0 <= length
    requires Generate(edge, length, fingerWidth, perp).Ok?
    ensures var fs := Generate(edge, length, fingerWidth, perp).value.fingers;
            && fs[0].from == Add(edge.from, perp)
            && fs[|fs| - 1].to == Add(edge.to, if |fs| % 2 == 1 then perp else Neg(perp))
  {
    var fs := Generate(edge, length, fingerWidth, perp).value.fingers;
    var n := |fs|;
    GeneratedShape(edge, length, fingerWidth, perp);
    FirstPieceStartsAtEdgeStart(edge, n, length);
    LastPieceEndsAtEdgeEnd(edge, n, length);
    assert fs[0] == FingerAt(edge, n, length, perp, 0);
    assert fs[n - 1] == FingerAt(edge, n, length, perp, n - 1);
    OffsetAlternates(perp, n - 1);
  }

  /** Consecutive offsets are opposite, and the `+perp` branch is taken
      exactly when the index is even. The second clause states the parity
      test on `i + 1`, the form `ProfileEnds` needs for the last finger. */
  lemma OffsetAlternates(perp: Vec, i: int)
    ensures Offset(perp, i + 1) == Neg(Offset(perp, i))
    ensures Offset(perp, i) == if (i + 1) % 2 == 1 then perp else Neg(perp)
  {
    assert i % 2 == 0 <==> (i + 1) % 2 == 1;
  }

  /** Unfolds `Generate` for the property lemmas: a generated joint holds
      `n >= 1` fingers built from a positive length, and the connectors
      between them. It restates the definition and is not itself a
      property of the generator. */
  lemma GeneratedShape(edge: Seg, length: real, fingerWidth: real, perp: Vec)
    requires 0.0 <= length
    requires Generate(edge, length, fingerWidth, perp).Ok?
    ensures var j := Generate(edge, length, fingerWidth, perp).value;
            && 1 <= |j.fingers| && 0.0 < length
            && j.fingers == Fingers(edge, |j.fingers|, length, perp)
            && j.connectors == Connectors(j.fingers)
  {
    var n := |Generate(edge, length, fingerWidth, perp).value.fingers|;
    PositiveCountNeedsLength(length, fingerWidth, n);
  }

  /** Connector `i` runs from the start of finger `i + 1` to the end of
      finger `i`. */
  lemma ConnectorsJoinAdjacentFingers(edge: Seg, length: real, fingerWidth: real, perp: Vec)
    requires 0.0 <= length
    requires Generate(edge, length, fingerWidth, perp).Ok?
    ensures var j := Generate(edge, length, fingerWidth, perp).value;
            forall i :: 0 <= i < |j.connectors| ==>
              j.connectors[i] == Seg(j.fingers[i + 1].from, j.fingers[i].to)
  {
  }

  /** Adjacent fingers share a base point and have opposite offsets, so
      connector `i` is `+2 perp` long for even `i` and `-2 perp` for odd. */
  lemma ConnectorSpansTwiceOffset(edge: Seg, length: real, fingerWidth: real, perp: Vec)
    requires 0.0 <= length
    requires Generate(edge, length, fingerWidth, perp).Ok?
    ensures var cs := Generate(edge, length, fingerWidth, perp).value.connectors;
            forall i :: 0 <= i < |cs| ==>
              Direction(cs[i]) == Scale(if i % 2 == 0 then 2.0 else -2.0, perp)
  {
    var j := Generate(edge, length, fingerWidth, perp).value;
    var n := |j.fingers|;
    GeneratedShape(edge, length, fingerWidth, perp);
    ConnectorsJoinAdjacentFingers(edge, length, fingerWidth, perp);
    forall i | 0 <= i < |j.connectors|
      ensures Direction(j.connectors[i]) == Scale(if i % 2 == 0 then 2.0 else -2.0, perp)
    {
      var p := BasePiece(edge, n, length, i).to;
      assert p == BasePiece(edge, n, length, i + 1).from;
      assert j.fingers[i] == FingerAt(edge, n, length, perp, i);
      assert j.fingers[i + 1] == FingerAt(edge, n, length, perp, i + 1);
      assert j.fingers[i].to == Add(p, Offset(perp, i));
      assert j.fingers[i + 1].from == Add(p, Offset(perp, i + 1));
      OffsetAlternates(perp, i);
    }
  }

  /** With the offset a multiple of `edge direction x Z`, as the C#
      `MyFingerJoint` component derives it, every connector is
      perpendicular to the edge. */
  lemma ConnectorsPerpendicularToEdge(edge: Seg, length: real, fingerWidth: real,
                                      perp: Vec, k: real)
    requires 0.0 <= length
    requires perp == Scale(k, Cross(Direction(edge), ZAxis))
    requires Generate(edge, length, fingerWidth, perp).Ok?
    ensures var cs := Generate(edge, length, fingerWidth, perp).value.connectors;
            forall i :: 0 <= i < |cs| ==> Dot(Direction(cs[i]), Direction(edge)) == 0.0
  {
    var d := Direction(edge);
    var cs := Generate(edge, length, fingerWidth, perp).value.connectors;
    ConnectorSpansTwiceOffset(edge, length, fingerWidth, perp);
    CrossOrthogonal(d, ZAxis);
    DotScale(k, Cross(d, ZAxis), d);
    assert Dot(perp, d) == 0.0;
    DotScale(2.0, perp, d);
    DotScale(-2.0, perp, d);
  }

  /** The published list is every finger in generation order followed by
      every connector in index order, and nothing else. */
  lemma SolvePublishesFingersThenConnectors(edge: Seg, length: real,
                                            fingerWidth: real, perp: Vec)
    requires 0.0 <= length
    requires Solve(edge, length, fingerWidth, perp).Ok?
    ensures var j := Generate(edge, length, fingerWidth, perp).value;
            var out := Solve(edge, length, fingerWidth, perp).value;
            out[..|j.fingers|] == j.fingers && out[|j.fingers|..] == j.connectors
  {
  }
}
