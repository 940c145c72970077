/** `RayCasting` of raycasting.py: per frame, one ray per screen column is
    traced along horizontal and vertical grid lines, the nearer wall hit is
    kept, corrected for fish-eye, projected, and turned into a wall-slice
    draw command. The sine and cosine of each ray come from a `Trig`
    record; everything else is the source's arithmetic over reals. */
module RayCasting {
  import opened Common
  import opened Numeric
  import opened Grid
  import opened Settings

  /** Added to the first ray's angle. */
  const ANGLE_EPSILON: real := 0.0001
  /** Added to the depth before dividing by it. */
  const DEPTH_EPSILON: real := 0.0001
  /** Subtracted from the player's row or column when a ray heads toward
      smaller coordinates. */
  const GRID_EPSILON: real := 0.000001

  /** The two trigonometric functions the source takes from `math`. */
  datatype Trig = Trig(sin: real -> real, cos: real -> real)

  /** A point on a ray together with its distance along the ray; also used
      for the per-step increment of all three. */
  datatype Probe = Probe(x: real, y: real, depth: real)

  /** The state one grid traversal stops in: the last probe, the number of
      steps taken, and the texture of the wall hit, if any. */
  datatype Trace = Trace(end: Probe, steps: nat, hit: Option<int>)

  /** The source's `texture_hor` and `texture_vert`, which live across rays. */
  datatype Textures = Textures(hor: int, vert: int)

  datatype Side = Vertical | Horizontal

  datatype Hit = Hit(side: Side, depth: real, texture: int, offset: real)

  /** One entry of `ray_casting_result`. */
  datatype RayResult = RayResult(depth: real, projHeight: real, texture: int, offset: real)

  // ---------------------------------------------------------------------
  // Grid traversal

  /** The `k`-th probe of a traversal: `k` increments after `start`. */
  function At(start: Probe, step: Probe, k: nat): Probe
  {
    Probe(start.x + k as real * step.x, start.y + k as real * step.y, start.depth + k as real * step.depth)
  }

  /** `(int(x), int(y))`, the tile a probe looks up. */
  function TileOf(p: Probe): Tile
  {
    (Trunc(p.x), Trunc(p.y))
  }

  /** A traversal that starts at probe `k`: it stops at the first probe
      whose tile is a wall, or after `maxDepth` probes in all. */
  function Walk(world: WorldMap, start: Probe, step: Probe, maxDepth: nat, k: nat): (t: Trace)
    requires k <= maxDepth
    decreases maxDepth - k
    ensures k <= t.steps <= maxDepth
    ensures t.end == At(start, step, t.steps)
    ensures forall j :: k <= j < t.steps ==> TileOf(At(start, step, j)) !in world
    ensures t.hit.Some? <==> t.steps < maxDepth
    ensures t.hit.Some? ==> TileOf(t.end) in world && t.hit.value == world[TileOf(t.end)]
  {
    var here := At(start, step, k);
    if k == maxDepth then Trace(here, k, None)
    else if TileOf(here) in world then Trace(here, k, Some(world[TileOf(here)]))
    else Walk(world, start, step, maxDepth, k + 1)
  }

  /** What a traversal from the first probe must return: at most
      `maxDepth` probes, every probe before the last one open, and the last
      one a wall whose texture is reported unless the budget ran out. */
  predicate IsFirstHit(world: WorldMap, start: Probe, step: Probe, maxDepth: nat, t: Trace)
  {
    && t.steps <= maxDepth
    && t.end == At(start, step, t.steps)
    && (forall j :: 0 <= j < t.steps ==> TileOf(At(start, step, j)) !in world)
    && (if t.steps < maxDepth
        then TileOf(t.end) in world && t.hit == Some(world[TileOf(t.end)])
        else t.hit == None)
  }

  /** `Walk` meets the first-hit description, and is the only trace that
      does. */
  lemma {:induction false} WalkIsTheFirstHit(world: WorldMap, start: Probe, step: Probe, maxDepth: nat, t: Trace)
    ensures IsFirstHit(world, start, step, maxDepth, Walk(world, start, step, maxDepth, 0))
    ensures IsFirstHit(world, start, step, maxDepth, t) ==> t == Walk(world, start, step, maxDepth, 0)
  {
    var w := Walk(world, start, step, maxDepth, 0);
    if IsFirstHit(world, start, step, maxDepth, t) {
      if t.steps < w.steps {
        assert false;
      } else if w.steps < t.steps {
        assert false;
      }
    }
  }

  /** One more increment moves a probe by exactly the step. */
  lemma AtSucc(start: Probe, step: Probe, k: nat)
    ensures At(start, step, k + 1)
            == Probe(At(start, step, k).x + step.x, At(start, step, k).y + step.y,
                     At(start, step, k).depth + step.depth)
  {
    var kr := k as real;
    assert (kr + 1.0) * step.x == kr * step.x + step.x;
    assert (kr + 1.0) * step.y == kr * step.y + step.y;
    assert (kr + 1.0) * step.depth == kr * step.depth + step.depth;
  }

  /** The bounded loop of `ray_cast` (either of the two): probe the tile,
      stop on a wall, otherwise advance `x`, `y` and `depth` by one step. */
  method Traverse(world: WorldMap, start: Probe, step: Probe, maxDepth: nat) returns (t: Trace)
    ensures t == Walk(world, start, step, maxDepth, 0)
    ensures t.steps <= maxDepth
  {
    var x, y, depth := start.x, start.y, start.depth;
    var i: nat := 0;
    while i < maxDepth
      invariant i <= maxDepth
      invariant Probe(x, y, depth) == At(start, step, i)
      invariant Walk(world, start, step, maxDepth, 0) == Walk(world, start, step, maxDepth, i)
    {
      var tile := (Trunc(x), Trunc(y));
      if tile in world {
        return Trace(Probe(x, y, depth), i, Some(world[tile]));
      }
      AtSucc(start, step, i);
      x := x + step.x;
      y := y + step.y;
      depth := depth + step.depth;
      i := i + 1;
    }
    t := Trace(Probe(x, y, depth), i, None);
  }

  // ---------------------------------------------------------------------
  // Ray geometry

  /** The point lies on the ray from `(ox, oy)` with direction
      `(cos, sin)`, at its recorded depth. */
  predicate OnRay(p: Probe, ox: real, oy: real, sin: real, cos: real)
  {
    p.x == ox + p.depth * cos && p.y == oy + p.depth * sin
  }

  /** The increment moves along the ray direction by its depth increment. */
  predicate Along(step: Probe, sin: real, cos: real)
  {
    step.x == step.depth * cos && step.y == step.depth * sin
  }

  /** First probe and increment of the horizontal-line search: the next
      grid row in the ray's y direction, then one row per step. */
  function HorizontalStart(ox: real, oy: real, sin: real, cos: real): (Probe, Probe)
    requires sin != 0.0
  {
    var yMap := Trunc(oy) as real;
    var (yHor, dy) := if sin > 0.0 then (yMap + 1.0, 1.0) else (yMap - GRID_EPSILON, -1.0);
    var depthHor := (yHor - oy) / sin;
    var xHor := ox + depthHor * cos;
    var deltaDepth := dy / sin;
    var dx := deltaDepth * cos;
    (Probe(xHor, yHor, depthHor), Probe(dx, dy, deltaDepth))
  }

  /** The horizontal search starts on the ray at the next grid row in the
      ray's y direction (just below `y_map` when heading up) and steps one
      row at a time along the ray. */
  lemma HorizontalStartGeometry(ox: real, oy: real, sin: real, cos: real)
    requires sin != 0.0
    ensures var r := HorizontalStart(ox, oy, sin, cos);
            && OnRay(r.0, ox, oy, sin, cos) && Along(r.1, sin, cos)
            && r.1.y == (if sin > 0.0 then 1.0 else -1.0)
            && r.0.y == if sin > 0.0 then Trunc(oy) as real + 1.0 else Trunc(oy) as real - GRID_EPSILON
  {
    var r := HorizontalStart(ox, oy, sin, cos);
    assert r.0.depth * sin == r.0.y - oy;
    assert r.1.depth * sin == r.1.y;
  }

  /** First probe and increment of the vertical-line search: the next grid
      column in the ray's x direction, then one column per step. */
  function VerticalStart(ox: real, oy: real, sin: real, cos: real): (Probe, Probe)
    requires cos != 0.0
  {
    var xMap := Trunc(ox) as real;
    var (xVert, dx) := if cos > 0.0 then (xMap + 1.0, 1.0) else (xMap - GRID_EPSILON, -1.0);
    var depthVert := (xVert - ox) / cos;
    var yVert := oy + depthVert * sin;
    var deltaDepth := dx / cos;
    var dy := deltaDepth * sin;
    (Probe(xVert, yVert, depthVert), Probe(dx, dy, deltaDepth))
  }

  /** The vertical search starts on the ray at the next grid column in
      the ray's x direction (just left of `x_map` when heading left) and
      steps one column at a time along the ray. */
  lemma VerticalStartGeometry(ox: real, oy: real, sin: real, cos: real)
    requires cos != 0.0
    ensures var r := VerticalStart(ox, oy, sin, cos);
            && OnRay(r.0, ox, oy, sin, cos) && Along(r.1, sin, cos)
            && r.1.x == (if cos > 0.0 then 1.0 else -1.0)
            && r.0.x == if cos > 0.0 then Trunc(ox) as real + 1.0 else Trunc(ox) as real - GRID_EPSILON
  {
    var r := VerticalStart(ox, oy, sin, cos);
    assert r.0.depth * cos == r.0.x - ox;
    assert r.1.depth * cos == r.1.x;
  }

  /** From a non-negative position, both searches start at a positive
      depth and every step adds a positive depth. */
  lemma StartDepthsArePositive(ox: real, oy: real, sin: real, cos: real)
    requires 0.0 <= ox && 0.0 <= oy
    requires sin != 0.0 && cos != 0.0
    ensures HorizontalStart(ox, oy, sin, cos).0.depth > 0.0
    ensures HorizontalStart(ox, oy, sin, cos).1.depth > 0.0
    ensures VerticalStart(ox, oy, sin, cos).0.depth > 0.0
    ensures VerticalStart(ox, oy, sin, cos).1.depth > 0.0
  {
    var (h, hs) := HorizontalStart(ox, oy, sin, cos);
    var (v, vs) := VerticalStart(ox, oy, sin, cos);
    HorizontalStartGeometry(ox, oy, sin, cos);
    VerticalStartGeometry(ox, oy, sin, cos);
    PositiveWhenSameSign(h.y - oy, sin, h.depth);
    PositiveWhenSameSign(hs.y, sin, hs.depth);
    PositiveWhenSameSign(v.x - ox, cos, v.depth);
    PositiveWhenSameSign(vs.x, cos, vs.depth);
  }

  lemma PositiveWhenSameSign(num: real, den: real, q: real)
    requires den != 0.0 && q * den == num
    requires (den > 0.0 && num > 0.0) || (den < 0.0 && num < 0.0)
    ensures q > 0.0
  {
    if q <= 0.0 {
      if den > 0.0 {
        MulMonotoneNonNeg(q, 0.0, den);
      } else {
        MulMonotoneNonNeg(den, 0.0, -q);
      }
      assert false;
    }
  }

  /** Every probe of a search lies on the ray at its recorded depth, and
      consecutive probes are one grid line apart in the stepped
      coordinate. */
  lemma {:induction false} ProbesFollowTheRay(start: Probe, step: Probe, ox: real, oy: real, sin: real, cos: real, k: nat)
    requires OnRay(start, ox, oy, sin, cos) && Along(step, sin, cos)
    ensures OnRay(At(start, step, k), ox, oy, sin, cos)
    ensures At(start, step, k + 1).x - At(start, step, k).x == step.x
    ensures At(start, step, k + 1).y - At(start, step, k).y == step.y
    ensures At(start, step, k + 1).depth - At(start, step, k).depth == step.depth
  {
    var kr := k as real;
    assert kr * step.x == (kr * step.depth) * cos;
    assert kr * step.y == (kr * step.depth) * sin;
    assert (start.depth + kr * step.depth) * cos == start.depth * cos + (kr * step.depth) * cos;
    assert (start.depth + kr * step.depth) * sin == start.depth * sin + (kr * step.depth) * sin;
  }

  /** `y_map - 1e-6` is truncated toward zero: a ray heading up from row 0
      first probes row 0 itself, while from any row `r > 0` it probes row
      `r - 1`. */
  lemma UpwardSearchStartRow(ox: real, oy: real, sin: real, cos: real)
    requires 0.0 <= oy && sin < 0.0
    ensures TileOf(HorizontalStart(ox, oy, sin, cos).0).1
            == if Trunc(oy) == 0 then 0 else Trunc(oy) - 1
  {
    HorizontalStartGeometry(ox, oy, sin, cos);
  }

  // ---------------------------------------------------------------------
  // Hit selection

  /** Where across the wall face the hit lies, in `[0, 1]`: the fraction
      of the non-stepped coordinate, mirrored for vertical hits when the
      ray goes toward smaller x and for horizontal hits when it goes toward
      larger y. */
  function TextureOffset(side: Side, end: Probe, sin: real, cos: real): (r: real)
    ensures 0.0 <= r <= 1.0
    ensures side == Vertical ==> r == (if cos > 0.0 then Frac(end.y) else 1.0 - Frac(end.y))
    ensures side == Horizontal ==> r == (if sin > 0.0 then 1.0 - Frac(end.x) else Frac(end.x))
  {
    match side
    case Vertical => var f := Frac(end.y); if cos > 0.0 then f else 1.0 - f
    case Horizontal => var f := Frac(end.x); if sin > 0.0 then 1.0 - f else f
  }

  /** The offset reaches 1 exactly, not just approaches it: a vertical hit
      at a whole y with the ray heading toward smaller x. */
  lemma OffsetCanBeOne(end: Probe, sin: real)
    requires end.y == 3.0
    ensures TextureOffset(Vertical, end, sin, -0.5) == 1.0
  {
    assert Frac(3.0) == 0.0;
  }

  function HorizontalTrace(cfg: Config, world: WorldMap, ox: real, oy: real, sin: real, cos: real): Trace
    requires sin != 0.0
  {
    var (start, step) := HorizontalStart(ox, oy, sin, cos);
    Walk(world, start, step, cfg.maxDepth, 0)
  }

  function VerticalTrace(cfg: Config, world: WorldMap, ox: real, oy: real, sin: real, cos: real): Trace
    requires cos != 0.0
  {
    var (start, step) := VerticalStart(ox, oy, sin, cos);
    Walk(world, start, step, cfg.maxDepth, 0)
  }

  /** The textures after a ray: each search that hit records its wall's
      texture, a search that ran out keeps the previous one. */
  function UpdateTextures(tex: Textures, hor: Trace, vert: Trace): (r: Textures)
    ensures hor.hit.None? ==> r.hor == tex.hor
    ensures vert.hit.None? ==> r.vert == tex.vert
    ensures hor.hit.Some? ==> r.hor == hor.hit.value
    ensures vert.hit.Some? ==> r.vert == vert.hit.value
  {
    Textures(if hor.hit.Some? then hor.hit.value else tex.hor,
             if vert.hit.Some? then vert.hit.value else tex.vert)
  }

  /** The raw (uncorrected) hit of one ray: the vertical search's hit when
      it is strictly nearer, otherwise the horizontal one. */
  function NearestHit(cfg: Config, world: WorldMap, ox: real, oy: real, sin: real, cos: real, tex: Textures): (Hit, Textures)
    requires sin != 0.0 && cos != 0.0
  {
    var hor := HorizontalTrace(cfg, world, ox, oy, sin, cos);
    var vert := VerticalTrace(cfg, world, ox, oy, sin, cos);
    var tex' := UpdateTextures(tex, hor, vert);
    if vert.end.depth < hor.end.depth then
      (Hit(Vertical, vert.end.depth, tex'.vert, TextureOffset(Vertical, vert.end, sin, cos)), tex')
    else
      (Hit(Horizontal, hor.end.depth, tex'.hor, TextureOffset(Horizontal, hor.end, sin, cos)), tex')
  }

  /** Hit selection: the vertical hit is taken exactly when it is strictly
      nearer (ties go to the horizontal one), so the chosen depth is the
      smaller of the two; the texture is the chosen side's carried texture
      and the offset is that side's offset at its own end probe, in
      `[0, 1]`. */
  lemma NearestHitSelection(cfg: Config, world: WorldMap, ox: real, oy: real, sin: real, cos: real, tex: Textures)
    requires sin != 0.0 && cos != 0.0
    ensures var r := NearestHit(cfg, world, ox, oy, sin, cos, tex);
            var hor := HorizontalTrace(cfg, world, ox, oy, sin, cos);
            var vert := VerticalTrace(cfg, world, ox, oy, sin, cos);
            && r.1 == UpdateTextures(tex, hor, vert)
            && (r.0.side == Vertical <==> vert.end.depth < hor.end.depth)
            && r.0.depth == (if r.0.side == Vertical then vert.end.depth else hor.end.depth)
            && r.0.depth <= hor.end.depth && r.0.depth <= vert.end.depth
            && r.0.texture == (if r.0.side == Vertical then r.1.vert else r.1.hor)
            && r.0.offset == TextureOffset(r.0.side, if r.0.side == Vertical then vert.end else hor.end, sin, cos)
            && 0.0 <= r.0.offset <= 1.0
  {
  }

  /** A side whose search ran out at `MAX_DEPTH` reports the texture id it
      carried in (`RayMissReportsCarriedTexture` names that id for each ray
      of a cast). */
  lemma MissKeepsCarriedTexture(cfg: Config, world: WorldMap, ox: real, oy: real, sin: real, cos: real, tex: Textures)
    requires sin != 0.0 && cos != 0.0
    ensures var r := NearestHit(cfg, world, ox, oy, sin, cos, tex);
            && ((r.0.side == Horizontal && HorizontalTrace(cfg, world, ox, oy, sin, cos).hit.None?)
                ==> r.0.texture == tex.hor)
            && ((r.0.side == Vertical && VerticalTrace(cfg, world, ox, oy, sin, cos).hit.None?)
                ==> r.0.texture == tex.vert)
  {
    NearestHitSelection(cfg, world, ox, oy, sin, cos, tex);
  }

  /** The per-ray body of `ray_cast` up to the hit selection, with both
      traversals run as loops. */
  method FindNearestHit(cfg: Config, world: WorldMap, ox: real, oy: real, sin: real, cos: real, tex: Textures)
    returns (hit: Hit, tex': Textures)
    requires sin != 0.0 && cos != 0.0
    ensures (hit, tex') == NearestHit(cfg, world, ox, oy, sin, cos, tex)
  {
    var (hStart, hStep) := HorizontalStart(ox, oy, sin, cos);
    var hor := Traverse(world, hStart, hStep, cfg.maxDepth);
    var (vStart, vStep) := VerticalStart(ox, oy, sin, cos);
    var vert := Traverse(world, vStart, vStep, cfg.maxDepth);
    tex' := UpdateTextures(tex, hor, vert);
    if vert.end.depth < hor.end.depth {
      hit := Hit(Vertical, vert.end.depth, tex'.vert, TextureOffset(Vertical, vert.end, sin, cos));
    } else {
      hit := Hit(Horizontal, hor.end.depth, tex'.hor, TextureOffset(Horizontal, hor.end, sin, cos));
    }
  }

  // ---------------------------------------------------------------------
  // Projection

  /** `SCREEN_DIST / (depth + 0.0001)`: the height at which the wall's
      height times its (shifted) depth is the screen distance. */
  function ProjHeight(cfg: Config, depth: real): (h: real)
    requires depth + DEPTH_EPSILON != 0.0
    ensures h * (depth + DEPTH_EPSILON) == cfg.screenDist
  {
    cfg.screenDist / (depth + DEPTH_EPSILON)
  }

  /** For non-negative depths the projected height is positive, bounded by
      its value at depth 0, and strictly smaller the farther the wall. */
  lemma ProjHeightDecreasing(cfg: Config, d1: real, d2: real)
    requires cfg.screenDist > 0.0
    requires 0.0 <= d1 < d2
    ensures 0.0 < ProjHeight(cfg, d2) < ProjHeight(cfg, d1)
    ensures ProjHeight(cfg, d1) <= cfg.screenDist / DEPTH_EPSILON
  {
    DivDecreasing(cfg.screenDist, d1 + DEPTH_EPSILON, d2 + DEPTH_EPSILON);
    if 0.0 < d1 {
      DivDecreasing(cfg.screenDist, DEPTH_EPSILON, d1 + DEPTH_EPSILON);
    }
  }

  /** The end of one ray, after its nearest hit is known: the depth is
      scaled by `fishCos` (the cosine of the angle between the view and the
      ray) and projected. A corrected depth of exactly `-0.0001` divides by
      zero. */
  function Project(cfg: Config, nearest: (Hit, Textures), fishCos: real): (r: Result<(RayResult, Textures)>)
    ensures r.Failure? <==> nearest.0.depth * fishCos + DEPTH_EPSILON == 0.0
    ensures r.Success? ==>
              && r.value.1 == nearest.1
              && r.value.0.depth == nearest.0.depth * fishCos
              && r.value.0.projHeight == ProjHeight(cfg, r.value.0.depth)
              && r.value.0.texture == nearest.0.texture
              && r.value.0.offset == nearest.0.offset
  {
    var depth := nearest.0.depth * fishCos;
    if depth + DEPTH_EPSILON == 0.0 then Failure(ZeroDivision)
    else Success((RayResult(depth, ProjHeight(cfg, depth), nearest.0.texture, nearest.0.offset), nearest.1))
  }

  /** One ray of `ray_cast`; a zero sine or cosine divides by zero, and
      so does a corrected depth of exactly `-0.0001`. */
  function CastRay(cfg: Config, world: WorldMap, ox: real, oy: real, sin: real, cos: real, fishCos: real, tex: Textures)
    : (r: Result<(RayResult, Textures)>)
    ensures r.Failure? ==> r.fault == ZeroDivision
    ensures r.Failure? <==>
              || sin == 0.0 || cos == 0.0
              || NearestHit(cfg, world, ox, oy, sin, cos, tex).0.depth * fishCos + DEPTH_EPSILON == 0.0
  {
    if sin == 0.0 || cos == 0.0 then Failure(ZeroDivision)
    else Project(cfg, NearestHit(cfg, world, ox, oy, sin, cos, tex), fishCos)
  }

  /** The angle of ray `i`. */
  function RayAngle(cfg: Config, angle: real, i: int): real
  {
    angle - cfg.halfFov + ANGLE_EPSILON + i as real * cfg.deltaAngle
  }

  /** One ray as a function of its angle and the textures the previous
      ray left. */
  type RayFn = (real, Textures) -> Result<(RayResult, Textures)>

  /** The ray of `ray_cast` cast from `(ox, oy)` for a player facing
      `angle`: sine and cosine of the ray angle, and the fish-eye cosine of
      the angle between view and ray. */
  function PerRay(cfg: Config, world: WorldMap, ox: real, oy: real, angle: real, trig: Trig): RayFn
  {
    (a: real, tex: Textures) => CastAtAngle(cfg, world, ox, oy, angle, trig, a, tex)
  }

  /** The ray at angle `a` for a player facing `angle`. */
  function CastAtAngle(cfg: Config, world: WorldMap, ox: real, oy: real, angle: real, trig: Trig, a: real, tex: Textures)
    : Result<(RayResult, Textures)>
  {
    CastRay(cfg, world, ox, oy, trig.sin(a), trig.cos(a), trig.cos(angle - a), tex)
  }

  /** The ray loop as a fold: `acc` holds the results of rays `0` to
      `i - 1`, and rays `i` to `NUM_RAYS - 1` follow in order, each at its
      own angle and starting from the textures the previous ray left. The
      first fault ends the cast. */
  function FoldRays(cfg: Config, angle: real, cast: RayFn, i: nat, tex: Textures, acc: seq<RayResult>)
    : (r: Result<seq<RayResult>>)
    requires i <= cfg.numRays
    decreases cfg.numRays - i
    ensures r.Success? ==> |r.value| == |acc| + cfg.numRays - i && r.value[..|acc|] == acc
  {
    if i == cfg.numRays then Success(acc)
    else
      match cast(RayAngle(cfg, angle, i), tex)
      case Failure(f) => Failure(f)
      case Success((res, tex')) =>
        var r := FoldRays(cfg, angle, cast, i + 1, tex', acc + [res]);
        assert r.Success? ==> r.value[..|acc|] == (r.value[..|acc| + 1])[..|acc|];
        r
  }

  /** All `NUM_RAYS` rays of one frame, with both textures starting at 1. */
  function CastAllRays(cfg: Config, world: WorldMap, ox: real, oy: real, angle: real, trig: Trig)
    : (r: Result<seq<RayResult>>)
    ensures r.Success? ==> |r.value| == cfg.numRays
  {
    FoldRays(cfg, angle, PerRay(cfg, world, ox, oy, angle, trig), 0, Textures(1, 1), [])
  }

  /** Consecutive rays are `DELTA_ANGLE` apart. */
  lemma RayAngleSucc(cfg: Config, angle: real, i: int)
    ensures RayAngle(cfg, angle, i) + cfg.deltaAngle == RayAngle(cfg, angle, i + 1)
  {
    assert (i + 1) as real * cfg.deltaAngle == i as real * cfg.deltaAngle + cfg.deltaAngle;
  }

  /** The textures ray `j` starts from when rays `i` to `j - 1` are cast
      in order from `tex`, each from the textures the previous one left;
      a fault on the way has no such textures. */
  function TexBefore(cfg: Config, angle: real, cast: RayFn, i: nat, tex: Textures, j: nat): Result<Textures>
    requires i <= j <= cfg.numRays
    decreases j - i
  {
    if i == j then Success(tex)
    else
      match cast(RayAngle(cfg, angle, i), tex)
      case Failure(f) => Failure(f)
      case Success((_, tex')) => TexBefore(cfg, angle, cast, i + 1, tex', j)
  }

  /** Ray `j + 1` starts from the textures ray `j` returned. */
  lemma {:induction false} TexBeforeStep(cfg: Config, angle: real, cast: RayFn, i: nat, tex: Textures, j: nat)
    requires i <= j < cfg.numRays
    requires TexBefore(cfg, angle, cast, i, tex, j).Success?
    ensures var one := cast(RayAngle(cfg, angle, j), TexBefore(cfg, angle, cast, i, tex, j).value);
            TexBefore(cfg, angle, cast, i, tex, j + 1)
            == if one.Success? then Success(one.value.1) else Failure(one.fault)
    decreases j - i
  {
    if i < j {
      var one := cast(RayAngle(cfg, angle, i), tex);
      assert one.Success?;
      TexBeforeStep(cfg, angle, cast, i + 1, one.value.1, j);
    }
  }

  /** Entry `|acc| + j - i` of a completed fold is ray `j` at its own
      angle, cast from the textures rays `i` to `j - 1` left. */
  lemma {:induction false} FoldRaysResultAt(cfg: Config, angle: real, cast: RayFn, i: nat, tex: Textures,
                                            acc: seq<RayResult>, j: nat)
    requires i <= j < cfg.numRays
    requires FoldRays(cfg, angle, cast, i, tex, acc).Success?
    ensures var t := TexBefore(cfg, angle, cast, i, tex, j);
            && t.Success?
            && cast(RayAngle(cfg, angle, j), t.value).Success?
            && cast(RayAngle(cfg, angle, j), t.value).value.0
               == FoldRays(cfg, angle, cast, i, tex, acc).value[|acc| + j - i]
    decreases j - i
  {
    var one := cast(RayAngle(cfg, angle, i), tex);
    assert one.Success?;
    var r := FoldRays(cfg, angle, cast, i + 1, one.value.1, acc + [one.value.0]);
    assert FoldRays(cfg, angle, cast, i, tex, acc) == r;
    if j == i {
      assert r.value[..|acc| + 1] == acc + [one.value.0];
      assert r.value[|acc|] == r.value[..|acc| + 1][|acc|];
    } else {
      FoldRaysResultAt(cfg, angle, cast, i + 1, one.value.1, acc + [one.value.0], j);
    }
  }

  /** The loop of `ray_cast`, for any per-ray computation: both textures
      start at 1 once, the ray angle starts at `angle - HALF_FOV + 0.0001`
      and grows by `DELTA_ANGLE` per ray, and a fault ends the loop. */
  method RayLoop(cfg: Config, angle: real, cast: RayFn) returns (r: Result<seq<RayResult>>)
    ensures r == FoldRays(cfg, angle, cast, 0, Textures(1, 1), [])
    ensures r.Success? ==> |r.value| == cfg.numRays
  {
    var results: seq<RayResult> := [];
    var tex := Textures(1, 1);
    var rayAngle := angle - cfg.halfFov + ANGLE_EPSILON;
    var i: nat := 0;
    while i < cfg.numRays
      invariant i <= cfg.numRays
      invariant rayAngle == RayAngle(cfg, angle, i)
      invariant FoldRays(cfg, angle, cast, 0, Textures(1, 1), []) == FoldRays(cfg, angle, cast, i, tex, results)
    {
      var one := cast(rayAngle, tex);
      if one.Failure? {
        return Failure(one.fault);
      }
      results := results + [one.value.0];
      tex := one.value.1;
      RayAngleSucc(cfg, angle, i);
      rayAngle := rayAngle + cfg.deltaAngle;
      i := i + 1;
    }
    r := Success(results);
  }

  /** One ray of `ray_cast` with both traversals run as loops: the same
      result as `CastRay`, the ray `PerRay` hands to the loop. */
  method CastOneRay(cfg: Config, world: WorldMap, ox: real, oy: real, angle: real, trig: Trig,
                    rayAngle: real, tex: Textures)
    returns (r: Result<(RayResult, Textures)>)
    ensures r == CastRay(cfg, world, ox, oy, trig.sin(rayAngle), trig.cos(rayAngle), trig.cos(angle - rayAngle), tex)
  {
    var sin := trig.sin(rayAngle);
    var cos := trig.cos(rayAngle);
    if sin == 0.0 || cos == 0.0 {
      return Failure(ZeroDivision);
    }
    var hit, tex' := FindNearestHit(cfg, world, ox, oy, sin, cos, tex);
    r := Project(cfg, (hit, tex'), trig.cos(angle - rayAngle));
  }

  /** `ray_cast` from the player's position and heading. */
  method RayCast(cfg: Config, world: WorldMap, ox: real, oy: real, angle: real, trig: Trig)
    returns (r: Result<seq<RayResult>>)
    ensures r == CastAllRays(cfg, world, ox, oy, angle, trig)
    ensures r.Success? ==> |r.value| == cfg.numRays
  {
    r := RayLoop(cfg, angle, PerRay(cfg, world, ox, oy, angle, trig));
  }

  /** Result `j` of a completed loop is ray `j` cast at `RayAngle(j)` from
      the textures rays `0` to `j - 1` left, starting from `Textures(1, 1)`. */
  lemma RayLoopResultAt(cfg: Config, angle: real, cast: RayFn, j: nat)
    requires j < cfg.numRays
    requires FoldRays(cfg, angle, cast, 0, Textures(1, 1), []).Success?
    ensures var t := TexBefore(cfg, angle, cast, 0, Textures(1, 1), j);
            && t.Success?
            && cast(RayAngle(cfg, angle, j), t.value).Success?
            && cast(RayAngle(cfg, angle, j), t.value).value.0
               == FoldRays(cfg, angle, cast, 0, Textures(1, 1), []).value[j]
  {
    FoldRaysResultAt(cfg, angle, cast, 0, Textures(1, 1), [], j);
  }

  /** The textures ray `j` of `ray_cast` starts from: both ids are 1 before
      the first ray, and each later ray starts from what the previous one
      left. */
  function RayTextures(cfg: Config, world: WorldMap, ox: real, oy: real, angle: real, trig: Trig, j: nat)
    : Result<Textures>
    requires j <= cfg.numRays
  {
    TexBefore(cfg, angle, PerRay(cfg, world, ox, oy, angle, trig), 0, Textures(1, 1), j)
  }

  /** The ray at angle `a` completes from textures `tex`, without a fault. */
  predicate IsRayCompleted(cfg: Config, world: WorldMap, ox: real, oy: real, angle: real, trig: Trig,
                           a: real, tex: Textures)
  {
    PerRay(cfg, world, ox, oy, angle, trig)(a, tex).Success?
  }

  /** `res` is what the ray at angle `a` yields from textures `tex`, for a
      player at `(ox, oy)` facing `angle`: `CastRay` with the sine and
      cosine of `a` and the fish-eye cosine of `angle - a`. */
  predicate IsRayAt(cfg: Config, world: WorldMap, ox: real, oy: real, angle: real, trig: Trig,
                    a: real, tex: Textures, res: RayResult)
  {
    var one := PerRay(cfg, world, ox, oy, angle, trig)(a, tex);
    one.Success? && one.value.0 == res
  }

  /** Result `j` of a completed cast is the ray at angle
      `angle - HALF_FOV + 0.0001 + j * DELTA_ANGLE`, with the fish-eye
      cosine of the angle between the view and that ray, cast from the
      textures the rays before it left (both 1 for the first ray). */
  lemma EachRayIsCastAtItsAngle(cfg: Config, world: WorldMap, ox: real, oy: real, angle: real, trig: Trig, j: nat)
    requires j < cfg.numRays
    ensures RayTextures(cfg, world, ox, oy, angle, trig, 0) == Success(Textures(1, 1))
    ensures CastAllRays(cfg, world, ox, oy, angle, trig).Success? ==>
              && RayTextures(cfg, world, ox, oy, angle, trig, j).Success?
              && IsRayAt(cfg, world, ox, oy, angle, trig, RayAngle(cfg, angle, j),
                         RayTextures(cfg, world, ox, oy, angle, trig, j).value,
                         CastAllRays(cfg, world, ox, oy, angle, trig).value[j])
  {
    if CastAllRays(cfg, world, ox, oy, angle, trig).Failure? {
      return;
    }
    var cast := PerRay(cfg, world, ox, oy, angle, trig);
    var a := RayAngle(cfg, angle, j);
    var fold := FoldRays(cfg, angle, cast, 0, Textures(1, 1), []);
    assert fold == CastAllRays(cfg, world, ox, oy, angle, trig);
    RayLoopResultAt(cfg, angle, cast, j);
    var t := TexBefore(cfg, angle, cast, 0, Textures(1, 1), j).value;
    assert IsRayAt(cfg, world, ox, oy, angle, trig, a, t, fold.value[j]);
  }

  /** A ray that completes leaves its carried textures updated by its two
      searches: each id replaced only on a hit, by the hit tile's entry. */
  lemma CastRayTextures(cfg: Config, world: WorldMap, ox: real, oy: real, sin: real, cos: real, fishCos: real,
                        tex: Textures)
    ensures var one := CastRay(cfg, world, ox, oy, sin, cos, fishCos, tex);
            one.Success? ==>
              && sin != 0.0 && cos != 0.0
              && one.value.1 == UpdateTextures(tex, HorizontalTrace(cfg, world, ox, oy, sin, cos),
                                               VerticalTrace(cfg, world, ox, oy, sin, cos))
  {
    if sin != 0.0 && cos != 0.0 {
      NearestHitSelection(cfg, world, ox, oy, sin, cos, tex);
    }
  }

  /** Texture ids persist across rays: ray `j + 1` starts from ray `j`'s
      textures with each id replaced only when that side's search hit a
      wall, by the hit tile's map entry. */
  lemma TexturesCarryAcrossRays(cfg: Config, world: WorldMap, ox: real, oy: real, angle: real, trig: Trig, j: nat)
    requires j < cfg.numRays
    ensures var t := RayTextures(cfg, world, ox, oy, angle, trig, j);
            var a := RayAngle(cfg, angle, j);
            t.Success? && IsRayCompleted(cfg, world, ox, oy, angle, trig, a, t.value) ==>
              && trig.sin(a) != 0.0 && trig.cos(a) != 0.0
              && RayTextures(cfg, world, ox, oy, angle, trig, j + 1)
                 == Success(UpdateTextures(t.value, HorizontalTrace(cfg, world, ox, oy, trig.sin(a), trig.cos(a)),
                                           VerticalTrace(cfg, world, ox, oy, trig.sin(a), trig.cos(a))))
  {
    var cast := PerRay(cfg, world, ox, oy, angle, trig);
    var t := RayTextures(cfg, world, ox, oy, angle, trig, j);
    var a := RayAngle(cfg, angle, j);
    if t.Success? && IsRayCompleted(cfg, world, ox, oy, angle, trig, a, t.value) {
      TexBeforeStep(cfg, angle, cast, 0, Textures(1, 1), j);
      PerRayTextures(cfg, world, ox, oy, angle, trig, a, t.value);
    }
  }

  /** `CastRayTextures` for the ray `ray_cast` casts at angle `a`. */
  lemma PerRayTextures(cfg: Config, world: WorldMap, ox: real, oy: real, angle: real, trig: Trig,
                       a: real, tex: Textures)
    ensures var one := PerRay(cfg, world, ox, oy, angle, trig)(a, tex);
            one.Success? ==>
              && trig.sin(a) != 0.0 && trig.cos(a) != 0.0
              && one.value.1 == UpdateTextures(tex, HorizontalTrace(cfg, world, ox, oy, trig.sin(a), trig.cos(a)),
                                               VerticalTrace(cfg, world, ox, oy, trig.sin(a), trig.cos(a)))
  {
    assert PerRay(cfg, world, ox, oy, angle, trig)(a, tex) == CastAtAngle(cfg, world, ox, oy, angle, trig, a, tex);
    CastRayTextures(cfg, world, ox, oy, trig.sin(a), trig.cos(a), trig.cos(angle - a), tex);
  }

  /** What the ray at angle `a` yields from `tex`: its sine and cosine are
      non-zero and its texture is the nearest hit's, which on a side whose
      search ran out is the id carried in. */
  lemma RayAtReportsHitTexture(cfg: Config, world: WorldMap, ox: real, oy: real, angle: real, trig: Trig,
                               a: real, tex: Textures, res: RayResult)
    ensures IsRayAt(cfg, world, ox, oy, angle, trig, a, tex, res) ==>
              && trig.sin(a) != 0.0 && trig.cos(a) != 0.0
              && var sin, cos := trig.sin(a), trig.cos(a);
                 var nearest := NearestHit(cfg, world, ox, oy, sin, cos, tex);
                 && res.texture == nearest.0.texture
                 && ((nearest.0.side == Horizontal && HorizontalTrace(cfg, world, ox, oy, sin, cos).hit.None?)
                     ==> res.texture == tex.hor)
                 && ((nearest.0.side == Vertical && VerticalTrace(cfg, world, ox, oy, sin, cos).hit.None?)
                     ==> res.texture == tex.vert)
  {
    assert PerRay(cfg, world, ox, oy, angle, trig)(a, tex) == CastAtAngle(cfg, world, ox, oy, angle, trig, a, tex);
    if trig.sin(a) != 0.0 && trig.cos(a) != 0.0 {
      MissKeepsCarriedTexture(cfg, world, ox, oy, trig.sin(a), trig.cos(a), tex);
    }
  }

  /** In a completed cast, ray `j` reports its nearest hit's texture; when
      that side's search ran out, the id is the one ray `j` started from
      (`RayTextures`), which is 1 for the first ray. */
  lemma RayMissReportsCarriedTexture(cfg: Config, world: WorldMap, ox: real, oy: real, angle: real, trig: Trig,
                                     j: nat)
    requires j < cfg.numRays
    ensures var rays := CastAllRays(cfg, world, ox, oy, angle, trig);
            var a := RayAngle(cfg, angle, j);
            rays.Success? ==>
              && RayTextures(cfg, world, ox, oy, angle, trig, j).Success?
              && trig.sin(a) != 0.0 && trig.cos(a) != 0.0
              && var t := RayTextures(cfg, world, ox, oy, angle, trig, j).value;
                 var sin, cos := trig.sin(a), trig.cos(a);
                 var nearest := NearestHit(cfg, world, ox, oy, sin, cos, t);
                 && rays.value[j].texture == nearest.0.texture
                 && ((nearest.0.side == Horizontal && HorizontalTrace(cfg, world, ox, oy, sin, cos).hit.None?)
                     ==> rays.value[j].texture == t.hor)
                 && ((nearest.0.side == Vertical && VerticalTrace(cfg, world, ox, oy, sin, cos).hit.None?)
                     ==> rays.value[j].texture == t.vert)
  {
    var rays := CastAllRays(cfg, world, ox, oy, angle, trig);
    if rays.Success? {
      EachRayIsCastAtItsAngle(cfg, world, ox, oy, angle, trig, j);
      var t := RayTextures(cfg, world, ox, oy, angle, trig, j).value;
      RayAtReportsHitTexture(cfg, world, ox, oy, angle, trig, RayAngle(cfg, angle, j), t, rays.value[j]);
    }
  }

  // ---------------------------------------------------------------------
  // Wall slices

  datatype Rect = Rect(left: real, top: real, width: real, height: real)

  /** One entry of `objects_to_render`: the depth, the texture and the
      part of it sampled, the height the sample is scaled to (the width is
      always `SCALE`), and the screen position. */
  datatype RenderCommand = RenderCommand(
    depth: real, texture: int, sample: Rect, scaledHeight: real, posX: int, posY: real)

  /** `offset * (TEXTURE_SIZE - SCALE)`: the texture column sampled, which
      stays inside `[0, TEXTURE_SIZE - SCALE]`. */
  function SampleLeft(cfg: Config, offset: real): (left: real)
    ensures 0.0 <= offset <= 1.0 && cfg.scale <= cfg.textureSize ==>
              0.0 <= left <= (cfg.textureSize - cfg.scale) as real
  {
    var span := (cfg.textureSize - cfg.scale) as real;
    SampleLeftInRange(offset, span);
    offset * span
  }

  /** `HALF_HEIGHT - proj_height // 2`: the top of a wall shorter than the
      screen, which is on screen when `HALF_HEIGHT == HEIGHT // 2`, with
      the wall's bottom less than one pixel below the screen's. The wall
      is centred on `HALF_HEIGHT`: its midpoint lies in the pixel row that
      starts there. */
  function ShortWallTop(cfg: Config, projHeight: real): (top: real)
    ensures cfg.halfHeight as real <= top + projHeight / 2.0 < cfg.halfHeight as real + 1.0
    ensures 0.0 <= projHeight <= cfg.height as real && cfg.halfHeight == cfg.height / 2 ==>
              0.0 <= top && top + projHeight < (cfg.height + 1) as real
  {
    HalfFloorFits(projHeight, cfg.height);
    cfg.halfHeight as real - FloorDiv(projHeight, 2.0)
  }

  /** `TEXTURE_SIZE * HEIGHT / proj_height`: the part of the texture that a
      wall at least as tall as the screen shows, never more than the whole
      texture. */
  function TallSampleHeight(cfg: Config, projHeight: real): (h: real)
    requires 0 < cfg.height && cfg.height as real <= projHeight
    ensures h * projHeight == (cfg.textureSize * cfg.height) as real
    ensures 0 <= cfg.textureSize ==> 0.0 <= h <= cfg.textureSize as real
  {
    var h := (cfg.textureSize * cfg.height) as real / projHeight;
    TallSampleFitsTexture(cfg.textureSize as real, cfg.height as real, projHeight, h);
    h
  }

  /** `HALF_TEXTURE_SIZE - texture_height // 2`: where a tall wall's sample
      starts, at or below the texture's top when `HALF_TEXTURE_SIZE ==
      TEXTURE_SIZE // 2`, with the sample's bottom less than one pixel
      below the texture's. The sample is centred on `HALF_TEXTURE_SIZE` in
      the same sense as the short wall on `HALF_HEIGHT`. */
  function TallSampleTop(cfg: Config, sampleHeight: real): (top: real)
    ensures cfg.halfTextureSize as real <= top + sampleHeight / 2.0 < cfg.halfTextureSize as real + 1.0
    ensures 0.0 <= sampleHeight <= cfg.textureSize as real && cfg.halfTextureSize == cfg.textureSize / 2 ==>
              0.0 <= top && top + sampleHeight < (cfg.textureSize + 1) as real
  {
    HalfFloorFits(sampleHeight, cfg.textureSize);
    cfg.halfTextureSize as real - FloorDiv(sampleHeight, 2.0)
  }

  /** The slice for ray `ray`. A wall shorter than the screen samples the
      whole texture column and is centred; a taller one samples only the
      part that fits and fills the screen from the top. */
  function Slice(cfg: Config, ray: nat, r: RayResult): (c: RenderCommand)
    requires cfg.height > 0
    ensures c.depth == r.depth && c.texture == r.texture && c.posX == ray * cfg.scale
    ensures c.sample.width == cfg.scale as real && c.sample.left == SampleLeft(cfg, r.offset)
    ensures r.projHeight < cfg.height as real ==>
              && c.sample.top == 0.0 && c.sample.height == cfg.textureSize as real
              && c.scaledHeight == r.projHeight
              && c.posY == ShortWallTop(cfg, r.projHeight)
    ensures cfg.height as real <= r.projHeight ==>
              && c.scaledHeight == cfg.height as real && c.posY == 0.0
              && c.sample.height == TallSampleHeight(cfg, r.projHeight)
              && c.sample.top == TallSampleTop(cfg, c.sample.height)
  {
    var left := SampleLeft(cfg, r.offset);
    if r.projHeight < cfg.height as real then
      RenderCommand(r.depth, r.texture, Rect(left, 0.0, cfg.scale as real, cfg.textureSize as real),
                    r.projHeight, ray * cfg.scale, ShortWallTop(cfg, r.projHeight))
    else
      var h := TallSampleHeight(cfg, r.projHeight);
      RenderCommand(r.depth, r.texture, Rect(left, TallSampleTop(cfg, h), cfg.scale as real, h),
                    cfg.height as real, ray * cfg.scale, 0.0)
  }

  /** The left edge of a sampled column lies in `[0, span]`. */
  lemma SampleLeftInRange(offset: real, span: real)
    ensures 0.0 <= offset <= 1.0 && 0.0 <= span ==> 0.0 <= offset * span <= span
  {
    if 0.0 <= offset <= 1.0 && 0.0 <= span {
      MulMonotoneNonNeg(0.0, offset, span);
      MulMonotoneNonNeg(offset, 1.0, span);
    }
  }

  /** For `0 <= x <= full`: `x // 2 <= full // 2`, and an extent `x`
      centred from `full // 2 - x // 2` ends less than one unit past
      `full`. */
  lemma HalfFloorFits(x: real, full: int)
    ensures 0.0 <= x <= full as real ==>
              && FloorDiv(x, 2.0) <= (full / 2) as real
              && (full / 2) as real - FloorDiv(x, 2.0) + x < (full + 1) as real
  {
    if 0.0 <= x <= full as real {
      var q := full / 2;
      assert q as real <= full as real / 2.0 < q as real + 1.0;
      assert (full as real / 2.0).Floor == q;
      assert (x / 2.0).Floor <= q;
      var d := FloorDiv(x, 2.0);
      assert x - d < x / 2.0 + 1.0;
    }
  }

  /** A sample of height `t` with `t * proj == tex * height` and
      `height <= proj` is no higher than `tex`. */
  lemma TallSampleFitsTexture(tex: real, height: real, proj: real, t: real)
    ensures 0.0 <= tex && 0.0 < height <= proj && t * proj == tex * height ==> 0.0 <= t <= tex
  {
    if 0.0 <= tex && 0.0 < height <= proj && t * proj == tex * height {
      if t > tex {
        MulMonotone(tex, t, proj);
        MulMonotoneNonNeg(height, proj, tex);
        assert false;
      }
      if t < 0.0 {
        MulMonotone(t, 0.0, proj);
        MulMonotoneNonNeg(0.0, height, tex);
        assert false;
      }
    }
  }

  /** With `HALF_HEIGHT == HEIGHT // 2`, `HALF_TEXTURE_SIZE ==
      TEXTURE_SIZE // 2` and `0 <= SCALE <= TEXTURE_SIZE`, every slice
      starts on screen and samples inside the texture: its left edge in
      `[0, TEXTURE_SIZE - SCALE]`, its sample no higher than the texture,
      starting at or below the texture's top and ending less than one
      pixel below its bottom, and the slice itself ending less than one
      pixel below the screen. */
  lemma SliceFitsScreenAndTexture(cfg: Config, ray: nat, r: RayResult)
    requires cfg.height > 0 && cfg.halfHeight == cfg.height / 2
    requires 0 <= cfg.scale <= cfg.textureSize && cfg.halfTextureSize == cfg.textureSize / 2
    requires 0.0 <= r.offset <= 1.0 && 0.0 <= r.projHeight
    ensures var c := Slice(cfg, ray, r);
            && 0.0 <= c.posY
            && 0.0 <= c.sample.left <= (cfg.textureSize - cfg.scale) as real
            && c.sample.height <= cfg.textureSize as real
            && 0.0 <= c.sample.top
            && c.sample.top + c.sample.height < (cfg.textureSize + 1) as real
            && c.posY + c.scaledHeight < (cfg.height + 1) as real
  {
  }

  /** `get_objects_to_render`: one command per result, in ray order, each
      placed `SCALE` pixels right of the previous one. */
  function GetObjectsToRender(cfg: Config, results: seq<RayResult>): (cmds: seq<RenderCommand>)
    requires cfg.height > 0
    ensures |cmds| == |results|
    ensures forall i :: 0 <= i < |results| ==> cmds[i] == Slice(cfg, i, results[i])
  {
    seq(|results|, i requires 0 <= i < |results| => Slice(cfg, i, results[i]))
  }

  /** Commands run left to right across the screen without overlap, and
      each carries its ray's depth and texture. */
  lemma RenderCommandsInRayOrder(cfg: Config, results: seq<RayResult>, i: nat, j: nat)
    requires cfg.height > 0 && cfg.scale > 0
    requires i < j < |results|
    ensures var cmds := GetObjectsToRender(cfg, results);
            && cmds[i].posX + cfg.scale <= cmds[j].posX
            && cmds[i].depth == results[i].depth
            && cmds[i].texture == results[i].texture
  {
    ScreenColumnsAdvance(i, j, cfg.scale);
  }

  lemma ScreenColumnsAdvance(i: nat, j: nat, scale: int)
    requires i < j && scale > 0
    ensures i * scale + scale <= j * scale
    decreases j - i
  {
    if j > i + 1 {
      ScreenColumnsAdvance(i, j - 1, scale);
    }
    assert j * scale == (j - 1) * scale + scale;
  }
}
