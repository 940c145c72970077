# A Dafny model of the fps-wolfenstein ray-caster core

This project models the discrete rules that sit under the pygame calls of a
first-person ray-caster written in Python. The model covers four files:

- **player.py** (`Players`): the player record and its wall collision, which
  works one axis at a time against a `map<(int, int), int>` grid. It also
  covers the key-count diagonal correction, heading wrap-around, the clamp on
  the mouse delta, timed health recovery, damage with the game-over reset,
  and the fire/reload latch.
- **raycasting.py** (`RayCasting`): the two grid-line traversals of each ray,
  bounded by `MAX_DEPTH`, and the texture lookup on a hit. It also covers the
  strict `<` choice between the vertical and horizontal hit, the rules that
  flip the texture offset, the fish-eye factor and the projection height. It
  ends with the ray loop over `NUM_RAYS` rays and the slice and placement
  arithmetic of `get_objects_to_render`.
- **main_menu.py** (`MainMenu`): selection that cycles modulo 3, and the
  dispatch on RETURN.
- **main.py** (`GameLoop`): the `MENU`/`PLAYING`/`OPTIONS` modes, construction,
  `new_game`, `start_game` and `show_options`. It also covers the
  `global_trigger` flag of `check_events`, the order of the frame `update`,
  and the dispatch in `run`.

Supporting modules:

- `Common`: `Option`, `Result`, `Fault`, keys and events.
- `Numeric`: truncation toward zero as done by `int()`, Python's float `%`
  and `//`, and the clamp.
- `Grid` and `Settings`: the tile map, and a `Config` record that holds the
  constants the modelled code reads from `settings.py`, `map.py` and
  `weapon.py`.

Floats are idealised as `real`. `math.sin` and `math.cos` are a `Trig`
parameter: two arbitrary functions evaluated at the same angles the source
uses. `1/sqrt(2)` is the field `diagMoveCorr`; the properties that need it
assume `diagMoveCorr * diagMoveCorr == 0.5`.

Python raises `ZeroDivisionError` when a sine, a cosine, `delta_time` or
`depth + 0.0001` is zero. The model represents this as `Failure(ZeroDivision)`,
or as the session state `Crashed`. `sys.exit()` is the session state `Exited`.

Behaviours of the code worth knowing:

- A tie between the two hits goes to the horizontal hit, because
  raycasting.py:95 uses a strict `<`.
- The texture offset lies in `[0, 1]` rather than `[0, 1)`. The expression
  `1 - (y % 1)` is exactly 1 on a grid line; `OffsetCanBeOne` exhibits this.
- A RETURN on Start rebuilds the game, and with it `main_menu`, but the loop
  of the old menu object handles the rest of the event batch. Its later moves
  no longer reach the game, while a later RETURN still dispatches.
  `GameLoop.MenuFold` models this.
- Nothing guards against `delta_time == 0`. `Update` therefore crashes with
  `ZeroDivision` instead of skipping the frame.

The ray caster is stated twice. The functional definitions (`Walk`,
`NearestHit`, `CastRay`, `FoldRays`) carry the properties. The loops
`Traverse`, `FindNearestHit` and `CastOneRay` are each proved equal to their
functional counterpart on their own. `RayCast` runs the loop over ray
angles (`RayLoop`), and each ray in it is the functional `CastRay`, with
`Walk` as the traversal.

## Model

| member | source | states |
|---|---|---|
| Players.MapPos | player.py:126-129 | `map_pos` truncates toward zero. For a non-negative coordinate the tile index is the unit cell that contains the position. |
| Players.CheckWallCollision | player.py:93-102 | `check_wall` (`CheckWall`) holds exactly for tiles absent from the map. Only `X` and `y` change, each by exactly `dx` or `dy` or not at all. `X` moves exactly when the probe tile `(int(X + dx*scale), int(y))` is open. `y` moves exactly when `(int(X'), int(y + dy*scale))` is open, where `X'` is the already-updated `X`. |
| Players.ProbeReachesStep | player.py:98-101 | When `PLAYER_SIZE_SCALE / delta_time >= 1`, the probe lies at least as far ahead as the step, on the same side. |
| Players.AxisMoveLandsOnProbedOrStartTile | player.py:99-102 | A step that does not reach past the probe, with the probe less than one tile away, lands in the start tile or in the probed tile. |
| Players.CollisionKeepsPlayerOnOpenTile | player.py:96-102 | When the probe reaches past the step and stays under one tile, a player on an open tile stays on an open tile. |
| Players.LongFrameCanEnterWall | player.py:98-100 | When `delta_time >= 2 * PLAYER_SIZE_SCALE`, the probe falls short of the step, and a concrete move puts the player inside a wall. |
| Players.KeyAccumulationMatchesRaw | player.py:64-82 | The source's counter, which starts at -1 and is incremented per key in W, S, A, D order, ends at one less than the number of held keys. Its deltas equal the sum of the per-key vectors: W `(cos, sin)`, S the opposite, A `(sin, -cos)`, D `(-sin, cos)`, each scaled by speed. |
| Players.DiagonalCorrection | player.py:65-87 | The deltas `movement` moves by (`MoveDeltas`): with exactly one key held they are unscaled. With zero, two, three or four keys both deltas are multiplied by `diag_move_corr`. |
| Players.TwoKeyDelta | player.py:67-82 | With one of W/S and one of A/D held, the raw delta is `fwd*(cos, sin) + side*(sin, -cos)` times speed, with signs `fwd, side` in {1, -1}. |
| Players.DiagonalNorm | player.py:84-87 | A corrected two-key delta has squared length `speed^2` when the correction squares to 1/2. |
| Players.DiagonalSpeedMatchesSingleKey | player.py:55-87 | One forward/backward key plus one strafe key moves the player exactly `speed` far. |
| Players.SingleKeySpeed | player.py:55-87 | One key alone moves the player uncorrected and exactly `speed` far, the same distance as the diagonal case. |
| Players.Movement | player.py:55-91 | After `movement` the heading lies in `[0, tau)` and differs from the old heading by an integer multiple of tau. The position is the result of the collision step applied to the key deltas at speed `PLAYER_SPEED * delta_time`. |
| Players.MouseControl | player.py:104-113 | Only `rel` and `angle` change. `rel` is the raw delta clamped to `[-MOUSE_MAX_REL, MOUSE_MAX_REL]`: unchanged inside that range and equal to the nearer bound outside it. The heading changes by `rel * MOUSE_SENSITIVITY * delta_time`. |
| Players.MouseTurnIsBounded | player.py:111-113 | One frame of mouse look turns the view by at most `MOUSE_MAX_REL * MOUSE_SENSITIVITY * delta_time` in either direction. |
| Players.CheckHealthRecoveryDelay | player.py:25-30 | The check passes exactly when strictly more than 700 ms have elapsed. `time_prev` is reset to `now` exactly when it passes. |
| Players.RecoverHealth | player.py:20-30 | Only `health` and `time_prev` change. Health rises by exactly 1 when the delay has passed and health is below the maximum; otherwise it is unchanged. It never exceeds the cap. The timer restarts whenever the delay passes, even at full health. |
| Players.RecoveryIsRateLimited | player.py:20-30 | After a call that healed, a call at most 700 ms later changes nothing, so health rises by at most one point per delay. |
| Players.SingleFireEvent | player.py:47-53 | The flags change exactly on a left-button press while neither `shot` nor `reloading` is set. Any change sets both flags. Nothing else in the player changes. |
| Players.FireIsLatched | player.py:47-53 | After a shot no event changes the flags, so handling the same event twice is the same as handling it once. |
| Players.UpdatePlayer | player.py:115-119 | One `update` leaves `shot` alone, raises health by at most 1, and leaves `rel` inside the clamp range. |
| RayCasting.Walk | raycasting.py:68-75 | A traversal runs at most `MAX_DEPTH` steps and ends at the `steps`-th probe. Every probe before the end is on an open tile. It hits exactly when it stops before `MAX_DEPTH`, and the recorded texture is the map entry of the probed tile. |
| RayCasting.WalkIsTheFirstHit | raycasting.py:68-92 | The traversal's result is the first wall probe, or the `MAX_DEPTH` cut-off, and it is the only trace with that property. |
| RayCasting.Traverse | raycasting.py:68-75 | The loop with early exit computes the same trace as the first-hit definition, in at most `MAX_DEPTH` steps. |
| RayCasting.HorizontalStartGeometry | raycasting.py:61-65 | `HorizontalStart`: the horizontal search starts on the ray at row `y_map + 1` when `sin > 0`, or at row `y_map - 1e-6` otherwise. Each step moves `y` by exactly +1 or -1 along the ray. |
| RayCasting.VerticalStartGeometry | raycasting.py:78-82 | `VerticalStart`: the vertical search starts on the ray at column `x_map + 1` when `cos > 0`, or at column `x_map - 1e-6` otherwise. Each step moves `x` by exactly +1 or -1 along the ray. |
| RayCasting.StartDepthsArePositive | raycasting.py:61-82 | From a non-negative position with non-zero sine and cosine, both searches start at a positive depth and each step adds a positive depth. |
| RayCasting.ProbesFollowTheRay | raycasting.py:73-92 | Every probe of a traversal lies on the ray at its recorded depth, and consecutive probes differ by exactly the step. |
| RayCasting.UpwardSearchStartRow | raycasting.py:61-69 | Heading toward smaller y, the first probe `y_map - 1e-6` lies in row `y_map - 1`, except at row 0, where `int()` truncates toward zero and gives row 0 rather than row -1. |
| RayCasting.TextureOffset | raycasting.py:97-102 | For a vertical hit the offset is `frac(y)` when `cos > 0`, else `1 - frac(y)`. For a horizontal hit it is `1 - frac(x)` when `sin > 0`, else `frac(x)`. Either way it lies in `[0, 1]`. |
| RayCasting.OffsetCanBeOne | raycasting.py:97-98 | A vertical hit on a grid line with `cos <= 0` gives offset exactly 1. |
| RayCasting.UpdateTextures | raycasting.py:52-88 | The texture ids change only on a hit, to the map entry. A miss keeps the id the previous ray left. |
| RayCasting.NearestHitSelection | raycasting.py:95-102 | In `NearestHit` the vertical hit is chosen exactly when `depth_vert < depth_hor`, so ties go to the horizontal hit. The chosen depth is the minimum, the texture is that side's carried id, and the offset is that side's `TextureOffset` at its own end probe (`y_vert` or `x_hor` at the hit), in `[0, 1]`. |
| RayCasting.MissKeepsCarriedTexture | raycasting.py:68-102 | When the chosen side's search ran out at `MAX_DEPTH`, the hit reports the texture id passed in for that side. `RayMissReportsCarriedTexture` says which id that is for each ray of a cast. |
| RayCasting.FindNearestHit | raycasting.py:57-102 | Running both traversals as loops gives the same hit and textures as the functional definition. |
| RayCasting.ProjHeight | raycasting.py:108 | The projected height times `depth + 0.0001` is `SCREEN_DIST`. |
| RayCasting.ProjHeightDecreasing | raycasting.py:108 | For non-negative depths `SCREEN_DIST / (depth + 0.0001)` is positive, strictly decreasing in depth, and at most its value at depth 0. |
| RayCasting.Project | raycasting.py:105-111 | The result fails exactly when the corrected depth is `-0.0001`. Otherwise the depth is multiplied by the fish-eye cosine, the height is the projection of the corrected depth, and texture and offset are those of the chosen hit. |
| RayCasting.CastRay | raycasting.py:57-111 | One ray fails, always with a division by zero, exactly when its sine or cosine is zero or its corrected depth is `-0.0001`. |
| RayCasting.CastRayTextures | raycasting.py:60-92 | A ray that completes has non-zero sine and cosine, and it leaves the carried textures updated by its two searches: each id is replaced only on a hit, by that tile's map entry. |
| RayCasting.RayAngleSucc | raycasting.py:55-114 | Adding `DELTA_ANGLE` to the angle of ray `i` gives the angle of ray `i + 1`, `angle - HALF_FOV + 0.0001 + (i+1)*DELTA_ANGLE`. |
| RayCasting.FoldRays | raycasting.py:56-114 | Rays `i` to `NUM_RAYS - 1` are appended after the earlier results, which stay in place, giving exactly `NUM_RAYS` results. |
| RayCasting.TexBeforeStep | raycasting.py:52-114 | In `TexBefore`, the textures ray `j + 1` starts from are those ray `j` returned, or its fault. |
| RayCasting.FoldRaysResultAt | raycasting.py:55-114 | Entry `j` of a completed fold is the result of ray `j`, cast at that ray's angle from `TexBefore(..., j)`: the textures that casting the earlier rays in order left. |
| RayCasting.CastAllRays | raycasting.py:45-114 | A completed cast produces exactly `NUM_RAYS` results. |
| RayCasting.RayLoopResultAt | raycasting.py:52-114 | Entry `j` of a completed cast from both ids 1 is ray `j` at its angle, cast from the textures rays `0` to `j - 1` left. |
| RayCasting.RayLoop | raycasting.py:52-114 | The loop that increments the angle computes the same results as the fold over ray indices, `NUM_RAYS` of them. |
| RayCasting.CastOneRay | raycasting.py:57-108 | One iteration of the loop computes the per-ray result, and divides by zero when the ray's sine or cosine is zero. |
| RayCasting.RayCast | raycasting.py:45-114 | `ray_cast` computes the fold over all rays starting with both textures at 1, and yields exactly `NUM_RAYS` results. |
| RayCasting.EachRayIsCastAtItsAngle | raycasting.py:52-114 | Ray 0 starts from both ids 1 (`RayTextures`). Result `j` of a completed cast is the ray at angle `angle - HALF_FOV + 0.0001 + j*DELTA_ANGLE`, using that angle's sine and cosine and the fish-eye cosine of `angle` minus it, cast from the textures `RayTextures` gives for `j`. |
| RayCasting.PerRayTextures | raycasting.py:57-92 | The ray at a given angle, when it completes, updates the carried textures as `CastRayTextures` states. |
| RayCasting.TexturesCarryAcrossRays | raycasting.py:52-92 | When ray `j` completes, ray `j + 1` starts from ray `j`'s textures, with each id replaced only if that side's search hit, by the hit tile's map entry. |
| RayCasting.RayAtReportsHitTexture | raycasting.py:94-111 | A ray result reports its nearest hit's texture. On a side whose search ran out it reports the id passed in. |
| RayCasting.RayMissReportsCarriedTexture | raycasting.py:52-111 | Ray `j` of a completed cast reports its nearest hit's texture. When that side's search ran out, this is the id ray `j` started from: 1 for ray 0, and otherwise the id the earlier rays left. |
| RayCasting.SampleLeft | raycasting.py:23-35 | The sampled column `offset * (TEXTURE_SIZE - SCALE)` lies in `[0, TEXTURE_SIZE - SCALE]`. |
| RayCasting.ShortWallTop | raycasting.py:29 | A wall is centred at `HALF_HEIGHT - proj_height // 2`: its midpoint lies in `[HALF_HEIGHT, HALF_HEIGHT + 1)`. With `HALF_HEIGHT == HEIGHT // 2` a wall no taller than the screen starts at a non-negative top and ends less than one pixel below `HEIGHT`. |
| RayCasting.TallSampleHeight | raycasting.py:32 | The sample height `t` of a tall wall satisfies `t * proj_height == TEXTURE_SIZE * HEIGHT` and `0 <= t <= TEXTURE_SIZE`. |
| RayCasting.TallSampleTop | raycasting.py:34 | A tall wall's sample starting at `HALF_TEXTURE_SIZE - t // 2` has its midpoint in `[HALF_TEXTURE_SIZE, HALF_TEXTURE_SIZE + 1)`. With `HALF_TEXTURE_SIZE == TEXTURE_SIZE // 2` it starts at or below the texture's top and ends less than one pixel below `TEXTURE_SIZE`. |
| RayCasting.Slice | raycasting.py:18-40 | Below `HEIGHT` (strict `<`), the slice samples the full texture height, is scaled to `proj_height` and is centred (see ShortWallTop). Otherwise it samples the reduced height, is scaled to `HEIGHT` and is placed at y = 0. Either way it sits at x = `ray * SCALE` and carries the ray's depth and texture. |
| RayCasting.SliceFitsScreenAndTexture | raycasting.py:21-40 | With consistent half sizes, every slice starts on screen. Its sample's left edge lies in `[0, TEXTURE_SIZE - SCALE]`, its top is at least 0 and its height at most `TEXTURE_SIZE`. The sample's bottom edge is below `TEXTURE_SIZE + 1`, and the slice's bottom is below `HEIGHT + 1`. |
| RayCasting.GetObjectsToRender | raycasting.py:14-43 | There is one command per result, and command `i` is the slice of result `i`. |
| RayCasting.RenderCommandsInRayOrder | raycasting.py:16-43 | The commands run left to right without overlap, and each carries its own ray's depth and texture. |
| MainMenu.NewMenu | main_menu.py:10-11 | The selection starts at index 0, the "Start" item. |
| MainMenu.Cycle | main_menu.py:29-32 | DOWN gives `(s + 1) mod 3` and UP gives `(s - 1) mod 3`, always in `[0, 3)`. |
| MainMenu.CycleInverse | main_menu.py:29-32 | UP undoes DOWN, and DOWN undoes UP. |
| MainMenu.CycleHasPeriodThree | main_menu.py:29-32 | Three DOWNs, or three UPs, return to the same item. |
| MainMenu.SelectOption | main_menu.py:36-43 | Index 0 dispatches Start, 1 Options and 2 Exit, and each valid index dispatches something. |
| MainMenu.HandleEvent | main_menu.py:27-34 | The selection stays in range. DOWN moves to `Cycle(s, true)` and UP to `Cycle(s, false)`, both without dispatch. RETURN keeps the selection and dispatches `SelectOption`. Only RETURN dispatches, and only DOWN or UP change the selection. |
| GameLoop.NewGame | main.py:29-40 | `new_game` installs a fresh map, a player (`NewPlayer`: full health, no shot, timer at `now`), weapon flag, ray caster and menu at 0. It leaves mode, trigger and frame time alone. |
| GameLoop.NewGameForgetsThePast | main.py:29-40 | Two rebuilt games are equal exactly when the old games agreed on mode, trigger and frame time. |
| GameLoop.Init | main.py:16-27 | After construction the mode is `MENU`, the trigger is clear, the frame time is 1, the game is freshly built, and the state is valid. |
| GameLoop.StartGame | main.py:70-72 | The mode becomes `PLAYING` and the game is freshly rebuilt, with trigger and frame time kept. |
| GameLoop.ShowOptions | main.py:74-76 | `show_options` changes nothing. |
| GameLoop.GetDamage | player.py:32-45 | Health drops by exactly `damage`. Below 1 the game is rebuilt with full health and no shot. The mode is never changed, so a game over leaves `PLAYING` in place. |
| GameLoop.GameEvent | main.py:61-68 | One event never crashes, and it exits exactly on QUIT or ESCAPE. Otherwise the trigger ends raised when it was raised already or the event is the timer event. The fire flags are those of `single_fire_event`, and nothing else changes. |
| GameLoop.EventFold | main.py:60-68 | The batch exits exactly when it holds QUIT or ESCAPE. Otherwise only the trigger and the fire flags change. The trigger is raised exactly when the batch holds the timer event. `shot` and `reloading` end set exactly when they were set already, or a left press found the other flag clear. |
| GameLoop.CheckEvents | main.py:57-68 | It never crashes, and exits exactly on QUIT or ESCAPE. Afterwards the trigger is set exactly when this batch held the timer event. `shot` ends set exactly when it was set or a left press found `reloading` clear, and `reloading` likewise. Nothing else in the game or the player changes. |
| GameLoop.Update | main.py:42-50 | A zero frame time crashes. Otherwise the frame runs exactly when every ray cast from the updated player completes. The player is updated first, then the rays are cast from the updated player and the slices built from those rays. The frame time becomes the clock tick, nothing else changes, and both lists have `NUM_RAYS` entries. |
| GameLoop.MenuFold | main_menu.py:26-43 | Over a batch the menu stays valid and the mode is unchanged or `PLAYING`. Without a start only the menu changes. Trigger and frame time are kept, and entering `PLAYING` leaves a freshly built game. Exiting, or entering `PLAYING` from another mode, needs a RETURN in the batch. A RETURN on Start or Options does not end the batch: the remaining events are still handled (see MenuFoldAtReturn). |
| GameLoop.MenuFoldWithoutReturn | main_menu.py:27-34 | A batch without RETURN neither exits nor starts a game, and only the menu changes. While the handler is the game's menu, the selection ends at `(start + #DOWN - #UP) mod 3`. |
| GameLoop.MenuUpdate | main.py:80-81 | Menu work never crashes and keeps the selection in range. Without a start only the menu changes; a start yields a fresh game in `PLAYING`. Exiting or starting needs a RETURN in the batch. Without one, the game is unchanged except that the selection becomes `(selected + #DOWN - #UP) mod 3`. |
| GameLoop.MenuFoldStep | main_menu.py:27-34 | Any event other than RETURN moves the handler and, while it is attached, the game's menu, and the rest of the batch continues from there. |
| GameLoop.MenuAfterCounts | main_menu.py:29-32 | After a run of events without RETURN, the selection is `(start + #DOWN - #UP) mod 3`. |
| GameLoop.MenuFoldSkipsPrefix | main_menu.py:27-34 | A prefix without RETURN changes only the menu, and the rest of the batch is handled from the menu it leaves. |
| GameLoop.MenuFoldAtReturn | main_menu.py:33-43 | A RETURN on Start builds a fresh game and detaches the old menu, and the rest of the batch is still handled. A RETURN on Options changes nothing and the batch goes on. A RETURN on Exit ends the session. |
| GameLoop.MenuFoldAtFirstReturn | main_menu.py:27-43 | A batch is split at its first RETURN: the selection reached by then is `(start + #DOWN - #UP) mod 3`, and that item decides whether the game starts and the batch continues on a detached menu, the batch continues unchanged, or the session exits. |
| GameLoop.MenuScenarios | main_menu.py:26-43 | From the initial menu, RETURN starts a game, DOWN RETURN stays in the menu on item 1, and DOWN DOWN RETURN exits. RETURN DOWN DOWN RETURN exits, because the old menu keeps handling the batch after the start. RETURN DOWN leaves a game in `PLAYING` on item 0, and DOWN RETURN UP RETURN starts a game. |
| GameLoop.RunFrame | main.py:78-88 | `OPTIONS` does nothing. `MENU` runs the menu's update on the frame's events, changing only the menu unless it starts a game. `PLAYING` runs `check_events` and then, unless that exited, `update`. A `PLAYING` frame exits exactly on QUIT or ESCAPE. Otherwise it crashes (on a zero frame time, or a ray that divides by zero) or stays `PLAYING` with the frame time set to the tick and the trigger raised exactly when the batch held the timer event. Every frame preserves the state invariant. |
| GameLoop.Run | main.py:78-88 | Every running state reached by the loop is valid, and a finished session stays finished. |
| GameLoop.PlayingIsNeverLeft | main.py:80-88 | Once playing, no sequence of frames returns to the menu. |
| GameLoop.OptionsNeverEntered | main.py:16-27 | From construction, `OPTIONS` is never entered and the menu selection stays in `[0, 3)`. |

## Left out

- All pygame I/O: display flips, drawing, `MainMenu.draw`, fonts, sound, blitting, and the pixel work of `subsurface` and `transform.scale`. `get_objects_to_render` is modelled only as the rectangle and position arithmetic, with no integer truncation of the surface sizes.
- `key.get_pressed`, `event.get` and the mouse are inputs. The keys are a `Keys` record, the events are a list, and `rawRel` is the value of `mouse.get_rel()[0]`. The cursor reset at the screen border (player.py:106-109) changes no modelled state, so it is left out.
- Clocks: `get_ticks` is a `now` parameter, one per frame. `clock.tick(FPS)` is the `tick` parameter. `delay(1500)` has no modelled effect.
- Trig and floating point: sine, cosine, tau and `1/sqrt(2)` are exact reals or parameters. Float rounding is not modelled.
- The settings, map, weapon, object handler, object renderer, sound and pathfinding modules are not part of this model. Their constants are fields of `Config`. The `update` of the object handler and weapon (main.py:46-47) is not modelled.
- `pg.quit()` with `sys.exit()` is the terminal state `Exited`.
- Players.CheckWallCollision, Players.Movement and Players.UpdatePlayer: these require `delta_time != 0` rather than modelling the division by zero. `GameLoop.Update` models that crash itself, before calling them.
- MainMenu.HandleEvent and GameLoop.MenuUpdate: these require a selection in `[0, 3)` instead of modelling an index error. `GameLoop.OptionsNeverEntered` proves that every reachable state meets this requirement.
- RayCasting.SliceFitsScreenAndTexture: bounds the bottom edges only to within one pixel. pygame truncates the float rectangle to integers, and that truncation is not modelled. With `TEXTURE_SIZE` 256, `HALF_TEXTURE_SIZE` 128 and a sample height of 255.5, the sample's top is 1 and its bottom is 256.5.
- Players.UpdatePlayer: its contract states bounds only. Each of `Movement`, `MouseControl` and `RecoverHealth` has its own contract. The order of the three steps is fixed only in `UpdatePlayer`'s body: movement uses the heading from before this frame's mouse turn, then the mouse turns, then health recovers.
- The per-frame `set_caption`, `get_fps` and `mixer.music.play` calls are left out.
