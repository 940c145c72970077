/** The player of player.py as an immutable record with one pure function
    per method. Wall-clock reads become a `now` parameter, the frame time a
    `deltaTime` parameter, and `math.sin`/`math.cos` of the heading are
    passed in as reals. */
module Players {
  import opened Common
  import opened Numeric
  import opened Grid
  import opened Settings

  /** Milliseconds that must pass, strictly, between two recovery ticks. */
  const HEALTH_RECOVERY_DELAY: int := 700

  /** Pressed state of the four movement keys W, S, A, D. */
  datatype Keys = Keys(w: bool, s: bool, a: bool, d: bool)

  /** `x` is the source's `X`. `rel` is the last clamped mouse delta and
      `timePrev` the timestamp of the last passed recovery-delay check. */
  datatype Player = Player(
    x: real, y: real, angle: real,
    shot: bool, health: int, rel: int, timePrev: int)

  /** `Player(game)` built at time `now`. */
  function NewPlayer(cfg: Config, now: int): Player
  {
    Player(cfg.playerX, cfg.playerY, cfg.playerAngle, false, cfg.playerMaxHealth, 0, now)
  }

  /** The `map_pos` property: the tile the player stands on. */
  function MapPos(p: Player): (t: Tile)
    ensures 0.0 <= p.x ==> t.0 as real <= p.x < t.0 as real + 1.0
    ensures 0.0 <= p.y ==> t.1 as real <= p.y < t.1 as real + 1.0
  {
    (Trunc(p.x), Trunc(p.y))
  }

  // ---------------------------------------------------------------------
  // Collision

  /** `check_wall`: true when the tile is open (absent from the map). */
  predicate CheckWall(world: WorldMap, x: int, y: int)
  {
    (x, y) !in world
  }

  /** `check_wall(int(x), int(y))` on a probe position. */
  predicate ProbeOpen(world: WorldMap, x: real, y: real)
  {
    CheckWall(world, Trunc(x), Trunc(y))
  }

  /** `PLAYER_SIZE_SCALE / delta_time`, the factor that stretches a step
      into a probe offset. */
  function CollisionScale(cfg: Config, deltaTime: int): real
    requires deltaTime != 0
  {
    cfg.playerSizeScale / deltaTime as real
  }

  /** `d * scale`: how far ahead of the player a step of `d` is probed. */
  function ProbeOffset(cfg: Config, d: real, deltaTime: int): real
    requires deltaTime != 0
  {
    d * CollisionScale(cfg, deltaTime)
  }

  /** `check_wall_collision`: each axis moves by its whole delta or not at
      all, depending on the probed tile; the y probe uses the x already
      updated. Nothing but the position changes. */
  function CheckWallCollision(cfg: Config, world: WorldMap, p: Player, dx: real, dy: real, deltaTime: int): (q: Player)
    requires deltaTime != 0
    ensures q == p.(x := q.x, y := q.y)
    ensures q.x == p.x || q.x == p.x + dx
    ensures q.y == p.y || q.y == p.y + dy
    ensures dx != 0.0 ==>
      (q.x == p.x + dx <==> ProbeOpen(world, p.x + ProbeOffset(cfg, dx, deltaTime), p.y))
    ensures dy != 0.0 ==>
      (q.y == p.y + dy <==> ProbeOpen(world, q.x, p.y + ProbeOffset(cfg, dy, deltaTime)))
  {
    var x := if ProbeOpen(world, p.x + ProbeOffset(cfg, dx, deltaTime), p.y) then p.x + dx else p.x;
    var y := if ProbeOpen(world, x, p.y + ProbeOffset(cfg, dy, deltaTime)) then p.y + dy else p.y;
    p.(x := x, y := y)
  }

  /** A probe at least as far ahead as the step: with a scale of at least
      one, `d * scale` lies on the same side of zero as `d` and beyond it. */
  lemma ProbeReachesStep(cfg: Config, d: real, deltaTime: int)
    requires deltaTime != 0 && CollisionScale(cfg, deltaTime) >= 1.0
    ensures 0.0 <= d ==> d <= ProbeOffset(cfg, d, deltaTime)
    ensures d < 0.0 ==> ProbeOffset(cfg, d, deltaTime) <= d
  {
    var scale := CollisionScale(cfg, deltaTime);
    assert ProbeOffset(cfg, d, deltaTime) - d == d * (scale - 1.0);
    if 0.0 <= d {
      MulMonotoneNonNeg(0.0, d, scale - 1.0);
    } else {
      MulMonotoneNonNeg(d, 0.0, scale - 1.0);
    }
  }

  /** A step that stays between the start and a probe less than one tile
      away lands on the start tile or on the probed tile. */
  lemma AxisMoveLandsOnProbedOrStartTile(v: real, d: real, offset: real)
    requires 0.0 <= d ==> d <= offset
    requires d < 0.0 ==> offset <= d
    requires -1.0 < offset < 1.0
    ensures Trunc(v + d) == Trunc(v) || Trunc(v + d) == Trunc(v + offset)
  {
    if d >= 0.0 {
      TruncNear(v, v + offset);
      TruncMonotone(v, v + d);
      TruncMonotone(v + d, v + offset);
    } else {
      TruncNear(v + offset, v);
      TruncMonotone(v + d, v);
      TruncMonotone(v + offset, v + d);
    }
  }

  /** Collision containment: a player standing on an open tile stays on an
      open tile, provided the probe reaches at least as far as the step
      (`delta_time <= PLAYER_SIZE_SCALE`) and less than one tile. */
  lemma {:induction false} CollisionKeepsPlayerOnOpenTile(cfg: Config, world: WorldMap, p: Player, dx: real, dy: real, deltaTime: int)
    requires deltaTime != 0
    requires CollisionScale(cfg, deltaTime) >= 1.0
    requires -1.0 < ProbeOffset(cfg, dx, deltaTime) < 1.0
    requires -1.0 < ProbeOffset(cfg, dy, deltaTime) < 1.0
    requires MapPos(p) !in world
    ensures MapPos(CheckWallCollision(cfg, world, p, dx, dy, deltaTime)) !in world
  {
    var q := CheckWallCollision(cfg, world, p, dx, dy, deltaTime);
    if q.x == p.x + dx && dx != 0.0 {
      ProbeReachesStep(cfg, dx, deltaTime);
      AxisMoveLandsOnProbedOrStartTile(p.x, dx, ProbeOffset(cfg, dx, deltaTime));
    }
    assert (Trunc(q.x), Trunc(p.y)) !in world;
    if q.y == p.y + dy && dy != 0.0 {
      ProbeReachesStep(cfg, dy, deltaTime);
      AxisMoveLandsOnProbedOrStartTile(p.y, dy, ProbeOffset(cfg, dy, deltaTime));
    }
  }

  /** When a frame is so long that the probe falls short of the step
      (`delta_time >= 2 * PLAYER_SIZE_SCALE` here), the collision test can
      move the player into a wall tile. */
  lemma LongFrameCanEnterWall(cfg: Config, deltaTime: int)
    requires cfg.playerSizeScale >= 0.0
    requires deltaTime > 0 && cfg.playerSizeScale * 2.0 <= deltaTime as real
    ensures var p := Player(0.5, 0.5, 0.0, false, 1, 0, 0);
            var world := map[(1, 0) := 1];
            && MapPos(p) !in world
            && MapPos(CheckWallCollision(cfg, world, p, 0.9, 0.0, deltaTime)) in world
  {
    var scale := CollisionScale(cfg, deltaTime);
    assert 0.0 <= scale <= 0.5 by {
      assert scale * deltaTime as real == cfg.playerSizeScale;
    }
    assert 0.5 <= 0.5 + 0.9 * scale < 1.0;
    assert Trunc(0.5 + 0.9 * scale) == 0;
  }

  // ---------------------------------------------------------------------
  // Movement

  /** Number of movement keys held. */
  function KeyCount(keys: Keys): nat
  {
    (if keys.w then 1 else 0) + (if keys.s then 1 else 0)
    + (if keys.a then 1 else 0) + (if keys.d then 1 else 0)
  }

  /** The displacement the held keys ask for before diagonal correction:
      W is forward `(cos, sin)`, S backward, A strafes to `(sin, -cos)` and
      D to `(-sin, cos)`, each scaled by `speed`. */
  function RawDelta(keys: Keys, speedSin: real, speedCos: real): (real, real)
  {
    var (wx, wy) := if keys.w then (speedCos, speedSin) else (0.0, 0.0);
    var (sx, sy) := if keys.s then (-speedCos, -speedSin) else (0.0, 0.0);
    var (ax, ay) := if keys.a then (speedSin, -speedCos) else (0.0, 0.0);
    var (ex, ey) := if keys.d then (-speedSin, speedCos) else (0.0, 0.0);
    (wx + sx + ax + ex, wy + sy + ay + ey)
  }

  /** The key loop of `movement`: the pressed-key counter starts at -1 and
      each held key adds its contribution to the deltas, in W, S, A, D
      order. */
  function KeyAccumulation(keys: Keys, speedSin: real, speedCos: real): (int, real, real)
  {
    var (n1, dx1, dy1) := if keys.w then (0, speedCos, speedSin) else (-1, 0.0, 0.0);
    var (n2, dx2, dy2) := if keys.s then (n1 + 1, dx1 - speedCos, dy1 - speedSin) else (n1, dx1, dy1);
    var (n3, dx3, dy3) := if keys.a then (n2 + 1, dx2 + speedSin, dy2 - speedCos) else (n2, dx2, dy2);
    if keys.d then (n3 + 1, dx3 - speedSin, dy3 + speedCos) else (n3, dx3, dy3)
  }

  /** Both components of a displacement multiplied by `c`. */
  function Scale(v: (real, real), c: real): (real, real)
  {
    (v.0 * c, v.1 * c)
  }

  /** The deltas of `movement`, corrected whenever the counter is non-zero. */
  function MoveDeltas(cfg: Config, keys: Keys, speedSin: real, speedCos: real): (real, real)
  {
    var acc := KeyAccumulation(keys, speedSin, speedCos);
    if acc.0 != 0 then Scale((acc.1, acc.2), cfg.diagMoveCorr) else (acc.1, acc.2)
  }

  /** The diagonal correction applies exactly when the number of keys held
      is not one: with one key the raw delta is used, with none or several
      both components are multiplied by `1/sqrt(2)`. */
  lemma DiagonalCorrection(cfg: Config, keys: Keys, speedSin: real, speedCos: real)
    ensures MoveDeltas(cfg, keys, speedSin, speedCos)
            == if KeyCount(keys) == 1 then RawDelta(keys, speedSin, speedCos)
               else Scale(RawDelta(keys, speedSin, speedCos), cfg.diagMoveCorr)
  {
    var acc := KeyAccumulation(keys, speedSin, speedCos);
    KeyAccumulationMatchesRaw(keys, speedSin, speedCos);
    assert (acc.1, acc.2) == RawDelta(keys, speedSin, speedCos);
  }

  /** The source's counter ends one below the number of held keys, and
      its deltas are the raw displacement. */
  lemma KeyAccumulationMatchesRaw(keys: Keys, speedSin: real, speedCos: real)
    ensures var acc := KeyAccumulation(keys, speedSin, speedCos);
            var raw := RawDelta(keys, speedSin, speedCos);
            acc.0 == KeyCount(keys) - 1 && acc.1 == raw.0 && acc.2 == raw.1
  {
  }

  /** Pressing one forward/backward key and one strafe key moves exactly as
      far as one key alone, when the correction squares to 1/2 and the
      heading's sine and cosine lie on the unit circle. */
  lemma {:induction false} DiagonalSpeedMatchesSingleKey(cfg: Config, keys: Keys, speed: real, sin: real, cos: real)
    requires cfg.diagMoveCorr * cfg.diagMoveCorr == 0.5
    requires sin * sin + cos * cos == 1.0
    requires keys.w != keys.s && keys.a != keys.d
    ensures var (dx, dy) := MoveDeltas(cfg, keys, speed * sin, speed * cos);
            dx * dx + dy * dy == speed * speed
  {
    var fwd := if keys.w then 1.0 else -1.0;
    var side := if keys.a then 1.0 else -1.0;
    var ss, sc := speed * sin, speed * cos;
    DiagonalCorrection(cfg, keys, ss, sc);
    TwoKeyDelta(keys, fwd, side, ss, sc);
    DiagonalNorm(fwd, side, ss, sc, speed, sin, cos, cfg.diagMoveCorr, MoveDeltas(cfg, keys, ss, sc));
  }

  /** With exactly one movement key held the step is uncorrected and has
      length `speed`, the length the diagonal case above is scaled to. */
  lemma {:induction false} SingleKeySpeed(cfg: Config, keys: Keys, speed: real, sin: real, cos: real)
    requires sin * sin + cos * cos == 1.0
    requires KeyCount(keys) == 1
    ensures var (dx, dy) := MoveDeltas(cfg, keys, speed * sin, speed * cos);
            dx * dx + dy * dy == speed * speed
  {
    var ss, sc := speed * sin, speed * cos;
    DiagonalCorrection(cfg, keys, ss, sc);
    var v := RawDelta(keys, ss, sc);
    assert v.0 * v.0 + v.1 * v.1 == sc * sc + ss * ss by {
      assert v == (sc, ss) || v == (-sc, -ss) || v == (ss, -sc) || v == (-ss, sc);
    }
    assert sc * sc + ss * ss == speed * speed * (sin * sin + cos * cos);
  }

  /** The algebra behind the two lemmas above: a forward and a strafe step,
      each of length `speed` and perpendicular, scaled by `c` with
      `c * c == 1/2`, add up to length `speed`. */
  lemma DiagonalNorm(f: real, s: real, ss: real, sc: real, speed: real, sin: real, cos: real, c: real,
                     v: (real, real))
    requires f * f == 1.0 && s * s == 1.0 && c * c == 0.5
    requires ss == speed * sin && sc == speed * cos && sin * sin + cos * cos == 1.0
    requires v.0 == (f * sc + s * ss) * c && v.1 == (f * ss - s * sc) * c
    ensures v.0 * v.0 + v.1 * v.1 == speed * speed
  {
    var a, b := f * sc + s * ss, f * ss - s * sc;
    assert v.0 * v.0 + v.1 * v.1 == (a * a + b * b) * (c * c) by {
      ScaledNorm(a, b, c);
    }
    assert a * a + b * b == 2.0 * (sc * sc + ss * ss) by {
      PerpendicularSum(f, s, sc, ss);
    }
    assert sc * sc + ss * ss == speed * speed by {
      assert sc * sc + ss * ss == speed * speed * (sin * sin + cos * cos);
    }
  }

  /** With one of W/S and one of A/D held, the raw displacement is the
      forward part plus the strafe part, and the correction applies. */
  lemma TwoKeyDelta(keys: Keys, fwd: real, side: real, ss: real, sc: real)
    requires keys.w != keys.s && keys.a != keys.d
    requires fwd == (if keys.w then 1.0 else -1.0) && side == (if keys.a then 1.0 else -1.0)
    ensures RawDelta(keys, ss, sc).0 == fwd * sc + side * ss
    ensures RawDelta(keys, ss, sc).1 == fwd * ss - side * sc
    ensures KeyCount(keys) == 2
    ensures fwd * fwd == 1.0 && side * side == 1.0
  {
  }

  lemma PerpendicularSum(f: real, s: real, x: real, y: real)
    requires f * f == 1.0 && s * s == 1.0
    ensures (f * x + s * y) * (f * x + s * y) + (f * y - s * x) * (f * y - s * x) == 2.0 * (x * x + y * y)
  {
    assert (f * x + s * y) * (f * x + s * y) == f * f * (x * x) + 2.0 * (f * s) * (x * y) + s * s * (y * y);
    assert (f * y - s * x) * (f * y - s * x) == f * f * (y * y) - 2.0 * (f * s) * (x * y) + s * s * (x * x);
  }

  lemma ScaledNorm(a: real, b: real, c: real)
    ensures Scale((a, b), c).0 * Scale((a, b), c).0 + Scale((a, b), c).1 * Scale((a, b), c).1
            == (a * a + b * b) * (c * c)
  {
  }

  /** The position part of `movement`: deltas at speed
      `PLAYER_SPEED * delta_time`, then the collision step. */
  function MoveAndCollide(cfg: Config, world: WorldMap, p: Player, keys: Keys, sin: real, cos: real, deltaTime: int): Player
    requires deltaTime != 0
  {
    var speed := cfg.playerSpeed * deltaTime as real;
    var d := MoveDeltas(cfg, keys, speed * sin, speed * cos);
    CheckWallCollision(cfg, world, p, d.0, d.1, deltaTime)
  }

  /** `movement`: deltas from the held keys at speed
      `PLAYER_SPEED * delta_time`, the collision step, then the heading
      reduced modulo tau. */
  function Movement(cfg: Config, world: WorldMap, p: Player, keys: Keys, sin: real, cos: real, deltaTime: int): (q: Player)
    requires deltaTime != 0
    ensures 0.0 <= q.angle < TAU
    ensures IsInteger((p.angle - q.angle) / TAU)
    ensures q.(angle := p.angle) == MoveAndCollide(cfg, world, p, keys, sin, cos, deltaTime)
  {
    var moved := MoveAndCollide(cfg, world, p, keys, sin, cos, deltaTime);
    moved.(angle := FloorMod(moved.angle, TAU))
  }

  // ---------------------------------------------------------------------
  // Mouse look

  /** `mouse_control` after the cursor read: the horizontal delta is
      clamped to `[-MOUSE_MAX_REL, MOUSE_MAX_REL]`, stored, and turned into
      a heading change. The heading is not wrapped here. */
  function MouseControl(cfg: Config, p: Player, rawRel: int, deltaTime: int): (q: Player)
    requires cfg.mouseMaxRel >= 0
    ensures q == p.(rel := q.rel, angle := q.angle)
    ensures -cfg.mouseMaxRel <= q.rel <= cfg.mouseMaxRel
    ensures -cfg.mouseMaxRel <= rawRel <= cfg.mouseMaxRel ==> q.rel == rawRel
    ensures rawRel < -cfg.mouseMaxRel ==> q.rel == -cfg.mouseMaxRel
    ensures cfg.mouseMaxRel < rawRel ==> q.rel == cfg.mouseMaxRel
    ensures q.angle - p.angle == q.rel as real * cfg.mouseSensitivity * deltaTime as real
  {
    var rel := Clamp(rawRel, -cfg.mouseMaxRel, cfg.mouseMaxRel);
    p.(rel := rel, angle := p.angle + rel as real * cfg.mouseSensitivity * deltaTime as real)
  }

  /** One frame of mouse look turns the view by at most
      `MOUSE_MAX_REL * MOUSE_SENSITIVITY * delta_time`. */
  lemma {:induction false} MouseTurnIsBounded(cfg: Config, p: Player, rawRel: int, deltaTime: int)
    requires cfg.mouseMaxRel >= 0 && cfg.mouseSensitivity >= 0.0 && deltaTime >= 0
    ensures var turn := MouseControl(cfg, p, rawRel, deltaTime).angle - p.angle;
            var bound := cfg.mouseMaxRel as real * cfg.mouseSensitivity * deltaTime as real;
            -bound <= turn <= bound
  {
    var q := MouseControl(cfg, p, rawRel, deltaTime);
    var k := cfg.mouseSensitivity * deltaTime as real;
    assert k >= 0.0;
    assert q.rel as real * k <= cfg.mouseMaxRel as real * k by {
      MulMonotoneNonNeg(q.rel as real, cfg.mouseMaxRel as real, k);
    }
    assert -(cfg.mouseMaxRel as real) * k <= q.rel as real * k by {
      MulMonotoneNonNeg(-(cfg.mouseMaxRel as real), q.rel as real, k);
    }
    assert q.angle - p.angle == q.rel as real * k;
  }

  // ---------------------------------------------------------------------
  // Health

  /** `check_health_recovery_delay`: passes when strictly more than the
      delay has elapsed, and then restarts the delay from `now`. */
  function CheckHealthRecoveryDelay(p: Player, now: int): (r: (bool, Player))
    ensures r.0 <==> now - p.timePrev > HEALTH_RECOVERY_DELAY
    ensures r.1 == if r.0 then p.(timePrev := now) else p
  {
    if now - p.timePrev > HEALTH_RECOVERY_DELAY then (true, p.(timePrev := now)) else (false, p)
  }

  /** `recover_health`: at most one point per passed delay, only below the
      cap; the delay restarts even when health is already full. */
  function RecoverHealth(cfg: Config, p: Player, now: int): (q: Player)
    ensures q == p.(health := q.health, timePrev := q.timePrev)
    ensures p.health <= q.health <= p.health + 1
    ensures q.health == p.health + 1 <==>
              now - p.timePrev > HEALTH_RECOVERY_DELAY && p.health < cfg.playerMaxHealth
    ensures p.health <= cfg.playerMaxHealth ==> q.health <= cfg.playerMaxHealth
    ensures q.timePrev == if now - p.timePrev > HEALTH_RECOVERY_DELAY then now else p.timePrev
  {
    var (passed, p1) := CheckHealthRecoveryDelay(p, now);
    if passed && p1.health < cfg.playerMaxHealth then p1.(health := p1.health + 1) else p1
  }

  /** At most one point per delay: after a call that healed, a call no
      more than 700 ms later changes nothing. */
  lemma RecoveryIsRateLimited(cfg: Config, p: Player, t1: int, t2: int)
    requires t2 - t1 <= HEALTH_RECOVERY_DELAY
    ensures var q := RecoverHealth(cfg, p, t1);
            q.health == p.health + 1 ==> RecoverHealth(cfg, q, t2) == q
  {
  }

  // ---------------------------------------------------------------------
  // Firing

  /** `single_fire_event`: a left-button press fires only when no shot is
      pending and the weapon is not reloading, and then sets both flags.
      Returns the player and the weapon's new `reloading` flag. */
  function SingleFireEvent(p: Player, reloading: bool, e: Event): (r: (Player, bool))
    ensures r.0 == p.(shot := r.0.shot)
    ensures r.0.shot != p.shot || r.1 != reloading <==>
              e == MouseButtonDown(1) && !p.shot && !reloading
    ensures r.0.shot != p.shot || r.1 != reloading ==> r.0.shot && r.1
  {
    if e.MouseButtonDown? && e.button == 1 && !p.shot && !reloading then
      (p.(shot := true), true)
    else
      (p, reloading)
  }

  /** The fire latch: once a press has fired, no further event changes the
      flags, so handling the same event twice is handling it once. */
  lemma FireIsLatched(p: Player, reloading: bool, e: Event, e': Event)
    ensures var (p1, r1) := SingleFireEvent(p, reloading, e);
            (p1.shot || r1) ==> SingleFireEvent(p1, r1, e') == (p1, r1)
    ensures var (p1, r1) := SingleFireEvent(p, reloading, e);
            SingleFireEvent(p1, r1, e) == (p1, r1)
  {
  }

  // ---------------------------------------------------------------------
  // Frame update

  /** `update`: movement with the heading's sine and cosine, then mouse
      look, then health recovery. */
  function UpdatePlayer(cfg: Config, world: WorldMap, p: Player, keys: Keys, sin: real, cos: real,
                        rawRel: int, now: int, deltaTime: int): (q: Player)
    requires deltaTime != 0 && cfg.mouseMaxRel >= 0
    ensures q.shot == p.shot
    ensures p.health <= q.health <= p.health + 1
    ensures -cfg.mouseMaxRel <= q.rel <= cfg.mouseMaxRel
  {
    var p1 := Movement(cfg, world, p, keys, sin, cos, deltaTime);
    var p2 := MouseControl(cfg, p1, rawRel, deltaTime);
    RecoverHealth(cfg, p2, now)
  }
}
