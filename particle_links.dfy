/** `connectParticles`: a line between every pair of particles closer than
    the link distance, fading with distance. */
module ParticleLinks {
  import opened Shapes

  /** Pairs at this distance or farther are not linked. */
  const LinkDistance: real := 100.0

  /** One `stroke()`: a segment from particle `i` to particle `j`. */
  datatype Stroke = Stroke(i: nat, j: nat, from: Point, to: Point, alpha: real, width: real)

  /** `Math.sqrt(dx * dx + dy * dy)`, with `sqrt` standing for Math.sqrt. */
  function Distance(p: Point, q: Point, sqrt: real -> real): real
  {
    var dx := p.x - q.x;
    var dy := p.y - q.y;
    sqrt(dx * dx + dy * dy)
  }

  /** The stroke alpha `1 - distance / 100`. */
  function LinkAlpha(d: real): (a: real)
    ensures 0.0 <= d < LinkDistance ==> 0.0 < a <= 1.0
    ensures d == 0.0 ==> a == 1.0
  {
    1.0 - d / LinkDistance
  }

  /** The closer the pair, the more opaque its line. */
  lemma LinkAlphaDecreasing(d1: real, d2: real)
    requires d1 < d2
    ensures LinkAlpha(d1) > LinkAlpha(d2)
  {
  }

  /** `lineWidth = 1 + audioValue * 0.01` */
  function LineWidth(v: real): (w: real)
    ensures 0.0 <= v ==> 1.0 <= w
    ensures 0.0 <= v <= 255.0 ==> w <= 3.55
  {
    1.0 + v * 0.01
  }

  /** The stroke drawn for the pair (i, j). */
  function PairStroke(pos: seq<Point>, sqrt: real -> real, v: real, i: nat, j: nat): Stroke
    requires i < |pos| && j < |pos|
  {
    Stroke(i, j, pos[i], pos[j], LinkAlpha(Distance(pos[i], pos[j], sqrt)), LineWidth(v))
  }

  /** The strokes the inner loop emits for the pair (i, j): one if the pair
      is closer than the link distance, none otherwise. */
  function StrokesForPair(pos: seq<Point>, sqrt: real -> real, v: real, i: nat, j: nat): seq<Stroke>
    requires i < |pos| && j < |pos|
  {
    if Distance(pos[i], pos[j], sqrt) < LinkDistance then [PairStroke(pos, sqrt, v, i, j)] else []
  }

  /** The strokes of row i for the pairs (i, i), ..., (i, j - 1), in order. */
  function RowStrokes(pos: seq<Point>, sqrt: real -> real, v: real, i: nat, j: nat): seq<Stroke>
    requires i <= j <= |pos|
    decreases j - i
  {
    if j == i then [] else RowStrokes(pos, sqrt, v, i, j - 1) + StrokesForPair(pos, sqrt, v, i, j - 1)
  }

  /** The strokes of rows 0, ..., i - 1, in order. */
  function RowsStrokes(pos: seq<Point>, sqrt: real -> real, v: real, i: nat): seq<Stroke>
    requires i <= |pos|
  {
    if i == 0 then [] else RowsStrokes(pos, sqrt, v, i - 1) + RowStrokes(pos, sqrt, v, i - 1, |pos|)
  }

  /** Every stroke `connectParticles` draws for the particle positions
      `pos`, in drawing order. */
  function Connections(pos: seq<Point>, sqrt: real -> real, v: real): seq<Stroke>
  {
    RowsStrokes(pos, sqrt, v, |pos|)
  }

  lemma AppendAssociative(xs: seq<Stroke>, ys: seq<Stroke>, zs: seq<Stroke>)
    ensures xs + ys + zs == xs + (ys + zs)
  {
  }

  /** `connectParticles(audioValue)` over the particles at `pos`, returning
      the strokes it draws. */
  method ConnectParticles(pos: seq<Point>, sqrt: real -> real, v: real) returns (strokes: seq<Stroke>)
    ensures strokes == Connections(pos, sqrt, v)
  {
    strokes := [];
    var i := 0;
    while i < |pos|
      invariant i <= |pos|
      invariant strokes == RowsStrokes(pos, sqrt, v, i)
    {
      ghost var rows := RowsStrokes(pos, sqrt, v, i);
      ghost var row := [];
      var j := i;
      while j < |pos|
        invariant i <= j <= |pos|
        invariant row == RowStrokes(pos, sqrt, v, i, j)
        invariant strokes == rows + row
      {
        var distance := Distance(pos[i], pos[j], sqrt);
        ghost var pair := StrokesForPair(pos, sqrt, v, i, j);
        if distance < LinkDistance {
          strokes := strokes + [Stroke(i, j, pos[i], pos[j], 1.0 - distance / LinkDistance, 1.0 + v * 0.01)];
          assert pair == [Stroke(i, j, pos[i], pos[j], 1.0 - distance / LinkDistance, 1.0 + v * 0.01)];
        } else {
          assert pair == [];
        }
        AppendAssociative(rows, row, pair);
        row := row + pair;
        j := j + 1;
      }
      i := i + 1;
    }
  }

  /** `s` is the stroke of a pair (i, j) with i <= j that lies within the
      link distance. */
  predicate IsLink(pos: seq<Point>, sqrt: real -> real, v: real, s: Stroke) {
    s.i <= s.j < |pos|
    && Distance(pos[s.i], pos[s.j], sqrt) < LinkDistance
    && s == PairStroke(pos, sqrt, v, s.i, s.j)
  }

  /** Pair order of the two nested loops: by row, then by column. */
  predicate PairBefore(s: Stroke, t: Stroke) {
    s.i < t.i || (s.i == t.i && s.j < t.j)
  }

  predicate InPairOrder(ss: seq<Stroke>) {
    forall a, b :: 0 <= a < b < |ss| ==> PairBefore(ss[a], ss[b])
  }

  lemma ConcatInPairOrder(xs: seq<Stroke>, ys: seq<Stroke>)
    requires InPairOrder(xs) && InPairOrder(ys)
    requires forall a, b :: 0 <= a < |xs| && 0 <= b < |ys| ==> PairBefore(xs[a], ys[b])
    ensures InPairOrder(xs + ys)
  {
  }

  /** Every stroke of `ss` is a link of a pair whose row lies in [lo, hi). */
  predicate LinksInRows(pos: seq<Point>, sqrt: real -> real, v: real, ss: seq<Stroke>, lo: nat, hi: nat) {
    forall a :: 0 <= a < |ss| ==> IsLink(pos, sqrt, v, ss[a]) && lo <= ss[a].i < hi
  }

  lemma ConcatLinksInRows(pos: seq<Point>, sqrt: real -> real, v: real, xs: seq<Stroke>, ys: seq<Stroke>, lo: nat, hi: nat)
    requires LinksInRows(pos, sqrt, v, xs, lo, hi) && LinksInRows(pos, sqrt, v, ys, lo, hi)
    ensures LinksInRows(pos, sqrt, v, xs + ys, lo, hi)
  {
  }

  /** Row i holds only links of row i, at columns below j, in column order. */
  lemma {:induction false} RowStrokesFacts(pos: seq<Point>, sqrt: real -> real, v: real, i: nat, j: nat)
    requires i <= j <= |pos|
    ensures var row := RowStrokes(pos, sqrt, v, i, j);
      && InPairOrder(row)
      && LinksInRows(pos, sqrt, v, row, i, i + 1)
      && forall a :: 0 <= a < |row| ==> row[a].j < j
    decreases j - i
  {
    if j > i {
      RowStrokesFacts(pos, sqrt, v, i, j - 1);
      var prefix := RowStrokes(pos, sqrt, v, i, j - 1);
      var last := StrokesForPair(pos, sqrt, v, i, j - 1);
      ConcatInPairOrder(prefix, last);
      ConcatLinksInRows(pos, sqrt, v, prefix, last, i, i + 1);
      var row := prefix + last;
      forall a | 0 <= a < |row|
        ensures row[a].j < j
      {
        if a < |prefix| {
          assert row[a] == prefix[a];
        } else {
          assert row[a] == last[a - |prefix|];
        }
      }
    }
  }

  /** Links of rows below r come before, and stay links of rows below r + 1
      together with, the links of row r. */
  lemma RowsPrecedeRow(pos: seq<Point>, sqrt: real -> real, v: real, prefix: seq<Stroke>, row: seq<Stroke>, r: nat)
    requires LinksInRows(pos, sqrt, v, prefix, 0, r) && LinksInRows(pos, sqrt, v, row, r, r + 1)
    ensures LinksInRows(pos, sqrt, v, prefix, 0, r + 1) && LinksInRows(pos, sqrt, v, row, 0, r + 1)
    ensures forall a, b :: 0 <= a < |prefix| && 0 <= b < |row| ==> PairBefore(prefix[a], row[b])
  {
  }

  /** Appending the links of row r to those of the rows below keeps pair
      order and gives links of the rows below r + 1. */
  lemma AppendRow(pos: seq<Point>, sqrt: real -> real, v: real, prefix: seq<Stroke>, row: seq<Stroke>, r: nat)
    requires InPairOrder(prefix) && LinksInRows(pos, sqrt, v, prefix, 0, r)
    requires InPairOrder(row) && LinksInRows(pos, sqrt, v, row, r, r + 1)
    ensures InPairOrder(prefix + row) && LinksInRows(pos, sqrt, v, prefix + row, 0, r + 1)
  {
    RowsPrecedeRow(pos, sqrt, v, prefix, row, r);
    ConcatLinksInRows(pos, sqrt, v, prefix, row, 0, r + 1);
    ConcatInPairOrder(prefix, row);
  }

  /** Rows below i hold only links of those rows, in pair order. */
  lemma {:induction false} RowsStrokesFacts(pos: seq<Point>, sqrt: real -> real, v: real, i: nat)
    requires i <= |pos|
    ensures InPairOrder(RowsStrokes(pos, sqrt, v, i))
    ensures LinksInRows(pos, sqrt, v, RowsStrokes(pos, sqrt, v, i), 0, i)
    decreases i
  {
    if i > 0 {
      RowsStrokesFacts(pos, sqrt, v, i - 1);
      RowStrokesFacts(pos, sqrt, v, i - 1, |pos|);
      AppendRow(pos, sqrt, v, RowsStrokes(pos, sqrt, v, i - 1), RowStrokes(pos, sqrt, v, i - 1, |pos|), i - 1);
    }
  }

  /** Soundness: every stroke drawn is the stroke of a pair (i, j), i <= j,
      closer than the link distance, with alpha `1 - d/100` and the
      frame's line width; and the strokes follow the loops' pair order, so
      no pair is stroked twice. */
  lemma ConnectionsSound(pos: seq<Point>, sqrt: real -> real, v: real)
    ensures var c := Connections(pos, sqrt, v);
      && InPairOrder(c)
      && forall a :: 0 <= a < |c| ==>
           && IsLink(pos, sqrt, v, c[a])
           && c[a].alpha == LinkAlpha(Distance(pos[c[a].i], pos[c[a].j], sqrt))
           && c[a].width == LineWidth(v)
  {
    RowsStrokesFacts(pos, sqrt, v, |pos|);
    var c := Connections(pos, sqrt, v);
    assert LinksInRows(pos, sqrt, v, c, 0, |pos|);
  }

  lemma {:induction false} RowStrokesComplete(pos: seq<Point>, sqrt: real -> real, v: real, i: nat, j: nat, k: nat)
    requires i <= k < j <= |pos|
    requires Distance(pos[i], pos[k], sqrt) < LinkDistance
    ensures PairStroke(pos, sqrt, v, i, k) in RowStrokes(pos, sqrt, v, i, j)
    decreases j - i
  {
    if k < j - 1 {
      RowStrokesComplete(pos, sqrt, v, i, j - 1, k);
    }
  }

  /** `ss` holds the stroke of every pair (i, j), j >= i, of row i that
      lies within the link distance. */
  predicate RowCovered(pos: seq<Point>, sqrt: real -> real, v: real, ss: seq<Stroke>, i: nat) {
    forall j :: i <= j < |pos| && Distance(pos[i], pos[j], sqrt) < LinkDistance ==> PairStroke(pos, sqrt, v, i, j) in ss
  }

  /** `ss` covers every row below hi. */
  predicate RowsCovered(pos: seq<Point>, sqrt: real -> real, v: real, ss: seq<Stroke>, hi: nat) {
    forall i :: 0 <= i < hi ==> RowCovered(pos, sqrt, v, ss, i)
  }

  lemma RowCoveredByRow(pos: seq<Point>, sqrt: real -> real, v: real, i: nat)
    requires i < |pos|
    ensures RowCovered(pos, sqrt, v, RowStrokes(pos, sqrt, v, i, |pos|), i)
  {
    forall j | i <= j < |pos| && Distance(pos[i], pos[j], sqrt) < LinkDistance
      ensures PairStroke(pos, sqrt, v, i, j) in RowStrokes(pos, sqrt, v, i, |pos|)
    {
      RowStrokesComplete(pos, sqrt, v, i, |pos|, j);
    }
  }

  /** Appending a sequence that covers row hi to one that covers the rows
      below hi covers the rows below hi + 1. */
  lemma AppendCovered(pos: seq<Point>, sqrt: real -> real, v: real, xs: seq<Stroke>, ys: seq<Stroke>, hi: nat)
    requires RowsCovered(pos, sqrt, v, xs, hi) && RowCovered(pos, sqrt, v, ys, hi)
    ensures RowsCovered(pos, sqrt, v, xs + ys, hi + 1)
  {
    forall i, j | 0 <= i <= hi && i <= j < |pos| && Distance(pos[i], pos[j], sqrt) < LinkDistance
      ensures PairStroke(pos, sqrt, v, i, j) in xs + ys
    {
      var s := PairStroke(pos, sqrt, v, i, j);
      if i < hi {
        assert RowCovered(pos, sqrt, v, xs, i);
        assert s in xs;
      } else {
        assert s in ys;
      }
    }
  }

  /** The rows below r cover all their pairs within the link distance. */
  lemma {:induction false} RowsStrokesCovered(pos: seq<Point>, sqrt: real -> real, v: real, r: nat)
    requires r <= |pos|
    ensures RowsCovered(pos, sqrt, v, RowsStrokes(pos, sqrt, v, r), r)
    decreases r
  {
    if r > 0 {
      RowsStrokesCovered(pos, sqrt, v, r - 1);
      RowCoveredByRow(pos, sqrt, v, r - 1);
      AppendCovered(pos, sqrt, v, RowsStrokes(pos, sqrt, v, r - 1), RowStrokes(pos, sqrt, v, r - 1, |pos|), r - 1);
    }
  }

  /** Completeness: every pair (i, j) with i <= j, self-pairs included,
      that is closer than the link distance is stroked. */
  lemma ConnectionsComplete(pos: seq<Point>, sqrt: real -> real, v: real, i: nat, j: nat)
    requires i <= j < |pos|
    requires Distance(pos[i], pos[j], sqrt) < LinkDistance
    ensures PairStroke(pos, sqrt, v, i, j) in Connections(pos, sqrt, v)
  {
    RowsStrokesCovered(pos, sqrt, v, |pos|);
    assert RowCovered(pos, sqrt, v, Connections(pos, sqrt, v), i);
  }

  /** When the square root of zero is zero, every particle is linked to
      itself with a fully opaque zero-length line. */
  lemma SelfPairsLinked(pos: seq<Point>, sqrt: real -> real, v: real, i: nat)
    requires i < |pos| && sqrt(0.0) == 0.0
    ensures Stroke(i, i, pos[i], pos[i], 1.0, LineWidth(v)) in Connections(pos, sqrt, v)
  {
    var p := pos[i];
    assert (p.x - p.x) * (p.x - p.x) + (p.y - p.y) * (p.y - p.y) == 0.0;
    ConnectionsComplete(pos, sqrt, v, i, i);
  }

  /** Comparing distances against 100 is comparing squared distances against
      10000, so the link test needs no square root. */
  lemma ThresholdBySquares(d: real, squared: real)
    requires 0.0 <= d && d * d == squared
    ensures d < LinkDistance <==> squared < LinkDistance * LinkDistance
  {
    assert LinkDistance * LinkDistance == 10000.0;
    if d < 100.0 {
      assert d * d <= d * 100.0;
      assert d * 100.0 < 10000.0;
    } else {
      assert d * d >= d * 100.0;
      assert d * 100.0 >= 10000.0;
    }
  }

  /** The link test of `connectParticles` on the square root of the squared
      distance is the test of the squared distance against 10000, whenever
      `sqrt` returns non-negative square roots. */
  lemma LinkTestBySquares(p: Point, q: Point, sqrt: real -> real)
    requires forall x: real :: 0.0 <= x ==> 0.0 <= sqrt(x) && sqrt(x) * sqrt(x) == x
    ensures var dx, dy := p.x - q.x, p.y - q.y;
      Distance(p, q, sqrt) < LinkDistance <==> dx * dx + dy * dy < 10000.0
  {
    var dx, dy := p.x - q.x, p.y - q.y;
    assert 0.0 <= dx * dx + dy * dy;
    ThresholdBySquares(Distance(p, q, sqrt), dx * dx + dy * dy);
  }

  /** Two particles 50 pixels apart: both self-pairs and the pair itself
      are stroked, the pair with alpha 0.5. */
  lemma TwoParticlesFiftyApart(sqrt: real -> real, v: real)
    requires sqrt(0.0) == 0.0 && sqrt(2500.0) == 50.0
    ensures var a, b := Point(0.0, 0.0), Point(50.0, 0.0);
      Connections([a, b], sqrt, v) ==
        [Stroke(0, 0, a, a, 1.0, LineWidth(v)),
         Stroke(0, 1, a, b, 0.5, LineWidth(v)),
         Stroke(1, 1, b, b, 1.0, LineWidth(v))]
  {
    var a, b := Point(0.0, 0.0), Point(50.0, 0.0);
    var pos := [a, b];
    assert Distance(a, b, sqrt) == 50.0;
    assert Distance(a, a, sqrt) == 0.0 && Distance(b, b, sqrt) == 0.0;
    assert RowStrokes(pos, sqrt, v, 0, 2) == [PairStroke(pos, sqrt, v, 0, 0), PairStroke(pos, sqrt, v, 0, 1)];
    assert RowStrokes(pos, sqrt, v, 1, 2) == [PairStroke(pos, sqrt, v, 1, 1)];
    assert RowsStrokes(pos, sqrt, v, 1) == RowStrokes(pos, sqrt, v, 0, 2);
    assert RowsStrokes(pos, sqrt, v, 2) == RowStrokes(pos, sqrt, v, 0, 2) + RowStrokes(pos, sqrt, v, 1, 2);
  }
}
