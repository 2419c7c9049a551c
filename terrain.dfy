/**
 * Procedural ground: the `do … while` loop of `plotGround` (world.service.ts)
 * and of the older `createGround` (world.component.ts). `Plot` is the
 * specification both loops are proved against; the lemmas below state what a
 * plot looks like.
 */
module Terrain {
  import opened Base
  import opened Physics

  const Thickness: real := 20.0
  const BaseWidth: real := 200.0
  const WidthVariance: real := 100.0
  /** How much the height variance `vY` grows after every segment. */
  const VarianceStep: real := 5.0
  /** The narrowest segment a draw can give: 200 + 0 * 100 - 50. */
  const MinWidth: real := BaseWidth - WidthVariance / 2.0

  /** One entry of the ground plot: the anchor (centre) and the local 4-vertex polygon. */
  datatype GroundSegment = GroundSegment(x: real, y: real, vertices: seq<Vector>)

  /** A value `Math.random()` can return. */
  predicate IsDraw(r: real) { 0.0 <= r < 1.0 }

  predicate ValidDraws(draws: seq<real>)
  {
    forall i :: 0 <= i < |draws| ==> IsDraw(draws[i])
  }

  /** `baseWidth + ((Math.random() * vWidth) - (vWidth / 2))`. */
  function SegmentWidth(r: real): (w: real)
    requires IsDraw(r)
    ensures MinWidth <= w < MinWidth + WidthVariance
  {
    BaseWidth + ((r * WidthVariance) - (WidthVariance / 2.0))
  }

  /**
   * `(Math.random() * vY) - (vY / 2)`: the height change of one segment. It
   * lies in `[-vY/2, vY/2)`, and is 0 while the variance is 0.
   */
  function SegmentRise(r: real, vY: real): (dy: real)
    ensures IsDraw(r) && vY >= 0.0 ==> -vY / 2.0 <= dy <= vY / 2.0
    ensures IsDraw(r) && vY > 0.0 ==> dy < vY / 2.0
    ensures vY == 0.0 ==> dy == 0.0
  {
    var rest := 1.0 - r;
    assert rest * vY == vY - r * vY;
    assert IsDraw(r) && vY >= 0.0 ==> r * vY >= 0.0;
    assert IsDraw(r) && vY >= 0.0 ==> rest * vY >= 0.0;
    assert IsDraw(r) && vY > 0.0 ==> rest * vY > 0.0;
    (r * vY) - (vY / 2.0)
  }

  /** The quad of one segment, in local coordinates; `SegmentGeometry` states its shape. */
  function Quad(w: real, dy: real): seq<Vector>
  {
    [Vector(0.0, 0.0), Vector(w, dy), Vector(w, dy + Thickness), Vector(0.0, Thickness)]
  }

  /** The plot entry pushed for a segment whose left edge is at `(x, y)`; `SegmentGeometry` states its shape. */
  function MakeSegment(x: real, y: real, w: real, dy: real): GroundSegment
  {
    GroundSegment(x + (w / 2.0), y + (dy / 2.0), Quad(w, dy))
  }

  predicate WellFormed(s: GroundSegment)
  {
    |s.vertices| == 4 && s.vertices == Quad(s.vertices[1].x, s.vertices[1].y)
  }

  function Width(s: GroundSegment): real
    requires WellFormed(s)
  {
    s.vertices[1].x
  }

  function Rise(s: GroundSegment): real
    requires WellFormed(s)
  {
    s.vertices[1].y
  }

  /** Where the segment's top edge starts and ends, recovered from its anchor. */
  function LeftX(s: GroundSegment): real
    requires WellFormed(s)
  {
    s.x - Width(s) / 2.0
  }

  function LeftY(s: GroundSegment): real
    requires WellFormed(s)
  {
    s.y - Rise(s) / 2.0
  }

  function RightX(s: GroundSegment): real
    requires WellFormed(s)
  {
    LeftX(s) + Width(s)
  }

  function RightY(s: GroundSegment): real
    requires WellFormed(s)
  {
    LeftY(s) + Rise(s)
  }

  /** `b` starts exactly where `a` ends. */
  predicate Chained(a: GroundSegment, b: GroundSegment)
    requires WellFormed(a) && WellFormed(b)
  {
    LeftX(b) == RightX(a) && LeftY(b) == RightY(a)
  }

  /**
   * An upper bound on the passes of the loop started at `x`: every pass
   * advances `x` by at least `MinWidth`, and the loop stops once `x > limit`.
   */
  function PassBound(x: real, limit: real): (n: nat)
    ensures n >= 1
    decreases if x + MinWidth > limit then 0 else (limit - x).Floor
  {
    if x + MinWidth > limit then 1 else 1 + PassBound(x + MinWidth, limit)
  }

  lemma {:induction false} PassBoundMonotone(x: real, x': real, limit: real)
    requires x <= x'
    ensures PassBound(x', limit) <= PassBound(x, limit)
    decreases if x + MinWidth > limit then 0 else (limit - x).Floor
  {
    if x' + MinWidth <= limit {
      PassBoundMonotone(x + MinWidth, x' + MinWidth, limit);
    }
  }

  /** Enough random draws for every pass the loop started at `x` can make. */
  predicate EnoughDraws(x: real, limit: real, draws: seq<real>)
  {
    ValidDraws(draws) && |draws| >= 2 * PassBound(x, limit)
  }

  /**
   * The plot built by the loop started with left edge `(x, y)` and variance
   * `vY`, consuming two draws per pass, stopping after the first pass that
   * leaves `x > limit`.
   */
  function Plot(x: real, y: real, vY: real, limit: real, draws: seq<real>): (plot: seq<GroundSegment>)
    requires vY >= 0.0 && EnoughDraws(x, limit, draws)
    ensures 1 <= |plot| <= PassBound(x, limit)
    decreases |draws|
  {
    var w := SegmentWidth(draws[0]);
    var dy := SegmentRise(draws[1], vY);
    var segment := MakeSegment(x, y, w, dy);
    if x + w > limit then
      [segment]
    else
      PassBoundMonotone(x + MinWidth, x + w, limit);
      [segment] + Plot(x + w, y + dy, vY + VarianceStep, limit, draws[2..])
  }

  /** Unfolding `Plot` once, in the form the loops use. */
  lemma PlotUnfold(x: real, y: real, vY: real, limit: real, draws: seq<real>)
    requires vY >= 0.0 && EnoughDraws(x, limit, draws)
    ensures var w := SegmentWidth(draws[0]);
            var segment := MakeSegment(x, y, w, SegmentRise(draws[1], vY));
            && (x + w > limit ==> Plot(x, y, vY, limit, draws) == [segment])
            && (x + w <= limit ==>
                  && EnoughDraws(x + w, limit, draws[2..])
                  && Plot(x, y, vY, limit, draws)
                     == [segment] + Plot(x + w, y + SegmentRise(draws[1], vY), vY + VarianceStep, limit, draws[2..]))
  {
    var w := SegmentWidth(draws[0]);
    if x + w <= limit {
      PassBoundMonotone(x + MinWidth, x + w, limit);
    }
  }

  /**
   * The state of a plotting loop: `prefix` is laid, and the plot still to
   * come from left edge `(x, y)` with spread `vY` on the remaining `draws`
   * completes it to `whole`.
   */
  ghost predicate PlotProgress(prefix: seq<GroundSegment>, whole: seq<GroundSegment>,
                               x: real, y: real, vY: real, limit: real, draws: seq<real>)
  {
    vY >= 0.0 && EnoughDraws(x, limit, draws) && prefix + Plot(x, y, vY, limit, draws) == whole
  }

  /**
   * One pass of a plotting loop that lays the segment of width `w` and rise
   * `dy` drawn from `draws`: when it still ends at or before `limit`, the
   * loop goes on from its right edge with the spread grown and two draws used.
   */
  lemma PlotPrefixStep(prefix: seq<GroundSegment>, whole: seq<GroundSegment>,
                       x: real, y: real, vY: real, limit: real, draws: seq<real>, w: real, dy: real)
    requires PlotProgress(prefix, whole, x, y, vY, limit, draws)
    requires w == SegmentWidth(draws[0]) && dy == SegmentRise(draws[1], vY) && x + w <= limit
    ensures PlotProgress(prefix + [MakeSegment(x, y, w, dy)], whole, x + w, y + dy, vY + VarianceStep, limit, draws[2..])
  {
    PlotUnfold(x, y, vY, limit, draws);
    var rest := Plot(x + w, y + dy, vY + VarianceStep, limit, draws[2..]);
    assert prefix + ([MakeSegment(x, y, w, dy)] + rest) == (prefix + [MakeSegment(x, y, w, dy)]) + rest;
  }

  /** The last pass of a plotting loop: the new segment ends past `limit` and completes the plot. */
  lemma PlotPrefixStop(prefix: seq<GroundSegment>, whole: seq<GroundSegment>,
                       x: real, y: real, vY: real, limit: real, draws: seq<real>, w: real, dy: real)
    requires PlotProgress(prefix, whole, x, y, vY, limit, draws)
    requires w == SegmentWidth(draws[0]) && dy == SegmentRise(draws[1], vY) && x + w > limit
    ensures prefix + [MakeSegment(x, y, w, dy)] == whole
  {
    PlotUnfold(x, y, vY, limit, draws);
  }

  /**
   * What the entry pushed for left edge `(x, y)` says about itself: a
   * well-formed quad of width `w` and rise `dy` whose top edge runs from
   * `(x, y)` to `(x + w, y + dy)`, with two vertical sides, `Thickness` deep
   * throughout.
   */
  lemma SegmentGeometry(x: real, y: real, w: real, dy: real)
    ensures var s := MakeSegment(x, y, w, dy);
      && WellFormed(s) && Width(s) == w && Rise(s) == dy
      && LeftX(s) == x && LeftY(s) == y && RightX(s) == x + w && RightY(s) == y + dy
    ensures var q := MakeSegment(x, y, w, dy).vertices;
      && q[0] == Vector(0.0, 0.0) && q[1] == Vector(w, dy)
      && q[0].x == q[3].x && q[1].x == q[2].x
      && q[3].y - q[0].y == Thickness && q[2].y - q[1].y == Thickness
  {
  }

  /** Entries `i` and `i + 1` touch, and entry `i` ends at or before `limit`. */
  lemma {:induction false} PlotLink(x: real, y: real, vY: real, limit: real, draws: seq<real>, i: nat)
    requires vY >= 0.0 && EnoughDraws(x, limit, draws)
    requires i + 1 < |Plot(x, y, vY, limit, draws)|
    ensures var p := Plot(x, y, vY, limit, draws);
      WellFormed(p[i]) && WellFormed(p[i + 1]) && Chained(p[i], p[i + 1]) && RightX(p[i]) <= limit
    decreases i
  {
    var w := SegmentWidth(draws[0]);
    var dy := SegmentRise(draws[1], vY);
    PlotUnfold(x, y, vY, limit, draws);
    var q := Plot(x + w, y + dy, vY + VarianceStep, limit, draws[2..]);
    SegmentGeometry(x, y, w, dy);
    if i == 0 {
      var w' := SegmentWidth(draws[2..][0]);
      var dy' := SegmentRise(draws[2..][1], vY + VarianceStep);
      SegmentGeometry(x + w, y + dy, w', dy');
    } else {
      PlotLink(x + w, y + dy, vY + VarianceStep, limit, draws[2..], i - 1);
    }
  }

  /** The last entry ends past `limit`: the loop ran until `x > width`. */
  lemma {:induction false} PlotLast(x: real, y: real, vY: real, limit: real, draws: seq<real>)
    requires vY >= 0.0 && EnoughDraws(x, limit, draws)
    ensures var p := Plot(x, y, vY, limit, draws);
      WellFormed(p[|p| - 1]) && RightX(p[|p| - 1]) > limit
    decreases |draws|
  {
    var w := SegmentWidth(draws[0]);
    var dy := SegmentRise(draws[1], vY);
    PlotUnfold(x, y, vY, limit, draws);
    SegmentGeometry(x, y, w, dy);
    if x + w <= limit {
      var q := Plot(x + w, y + dy, vY + VarianceStep, limit, draws[2..]);
      PlotLast(x + w, y + dy, vY + VarianceStep, limit, draws[2..]);
      assert Plot(x, y, vY, limit, draws)[|q|] == q[|q| - 1];
    }
  }

  /**
   * Contiguity and coverage: every entry is a well-formed quad of width in
   * `[150, 250)`, the first starts at `(x, y)`, each starts where the previous
   * one ends, all but the last end at or before `limit`, and the last ends past it.
   */
  lemma PlotContiguous(x: real, y: real, vY: real, limit: real, draws: seq<real>)
    requires vY >= 0.0 && EnoughDraws(x, limit, draws)
    ensures var p := Plot(x, y, vY, limit, draws);
      && (forall i :: 0 <= i < |p| ==> WellFormed(p[i]) && MinWidth <= Width(p[i]) < MinWidth + WidthVariance)
      && LeftX(p[0]) == x && LeftY(p[0]) == y
      && (forall i :: 0 <= i < |p| - 1 ==> Chained(p[i], p[i + 1]) && RightX(p[i]) <= limit)
      && RightX(p[|p| - 1]) > limit
  {
    var p := Plot(x, y, vY, limit, draws);
    forall i | 0 <= i < |p|
      ensures WellFormed(p[i]) && MinWidth <= Width(p[i]) < MinWidth + WidthVariance
    {
      PlotEntry(x, y, vY, limit, draws, i);
    }
    SegmentGeometry(x, y, SegmentWidth(draws[0]), SegmentRise(draws[1], vY));
    forall i | 0 <= i < |p| - 1
      ensures Chained(p[i], p[i + 1]) && RightX(p[i]) <= limit
    {
      PlotLink(x, y, vY, limit, draws, i);
    }
    PlotLast(x, y, vY, limit, draws);
  }

  /**
   * Entry `i`'s polygon is the one pass `i` pushes: its width comes from draw
   * `2i`, its height change from draw `2i+1` scaled by the variance `vY + 5i`.
   * Its anchor follows from the chaining in `PlotContiguous`.
   */
  lemma {:induction false} PlotEntry(x: real, y: real, vY: real, limit: real, draws: seq<real>, i: nat)
    requires vY >= 0.0 && EnoughDraws(x, limit, draws)
    requires i < |Plot(x, y, vY, limit, draws)|
    ensures 2 * i + 1 < |draws|
    ensures var s := Plot(x, y, vY, limit, draws)[i];
      var variance := vY + VarianceStep * (i as real);
      && WellFormed(s)
      && Width(s) == SegmentWidth(draws[2 * i])
      && Rise(s) == SegmentRise(draws[2 * i + 1], variance)
    decreases i
  {
    var w := SegmentWidth(draws[0]);
    if i > 0 {
      PlotUnfold(x, y, vY, limit, draws);
      var dy := SegmentRise(draws[1], vY);
      PlotEntry(x + w, y + dy, vY + VarianceStep, limit, draws[2..], i - 1);
      assert draws[2..][2 * (i - 1)] == draws[2 * i];
      assert draws[2..][2 * (i - 1) + 1] == draws[2 * i + 1];
      assert vY + VarianceStep + VarianceStep * ((i - 1) as real) == vY + VarianceStep * (i as real);
    }
  }

  /** A loop started with `vY = 0` lays a flat first segment. */
  lemma FirstSegmentFlat(x: real, y: real, limit: real, draws: seq<real>)
    requires EnoughDraws(x, limit, draws)
    ensures var p := Plot(x, y, 0.0, limit, draws);
      WellFormed(p[0]) && Rise(p[0]) == 0.0 && p[0].vertices == Quad(Width(p[0]), 0.0)
  {
    PlotEntry(x, y, 0.0, limit, draws, 0);
  }

  /**
   * `Bodies.fromVertices(gps.x, gps.y, [gps.vertices], { isStatic: true, frictionStatic: 1 })`:
   * a static body of the entry's polygon at its anchor, at rest.
   */
  function GroundBody(s: GroundSegment): (b: Body)
    ensures b.shape == Polygon(s.vertices) && b.position == Vector(s.x, s.y)
    ensures b.velocity == Origin && b.torque == 0.0
    ensures b.options == [IsStatic(true), FrictionStatic(1.0)]
  {
    NewBody(Polygon(s.vertices), Vector(s.x, s.y), [IsStatic(true), FrictionStatic(1.0)])
  }

  /** One static body per plot entry, in plot order. */
  predicate BuiltFrom(bodies: seq<Body>, plot: seq<GroundSegment>)
  {
    |bodies| == |plot| && forall i :: 0 <= i < |plot| ==> bodies[i] == GroundBody(plot[i])
  }

  /** Pushing the body of one more plot entry keeps bodies and plot in step. */
  lemma BuiltFromAppend(bodies: seq<Body>, plot: seq<GroundSegment>, s: GroundSegment)
    requires BuiltFrom(bodies, plot)
    ensures BuiltFrom(bodies + [GroundBody(s)], plot + [s])
  {
    var bodies', plot' := bodies + [GroundBody(s)], plot + [s];
    forall i | 0 <= i < |plot'|
      ensures bodies'[i] == GroundBody(plot'[i])
    {
      if i < |plot| {
        assert bodies'[i] == bodies[i] && plot'[i] == plot[i];
      }
    }
  }
}
