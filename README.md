# Raycaster core in Dafny

This project models the logic of a small SDL raycaster: one frame of player
movement and the non-drawing part of the per-frame ray fan. All of it lives in
`main.c`.

- **Movement** (`movement.dfy`). The player record is a `Player` class.
  `Player.Move` updates its fields in place, in the program's order:
  - velocity from the heading;
  - heading turn with a single wrap into [0, TAU);
  - per-axis clamp against a solid neighbour cell, keeping the `hitDist` margin;
  - integration of the in-cell offsets, carrying into the cell index.

  `Move` is proved against the value-level specification `Step`. The lemmas
  about `Step`/`Advance` state the clamp equalities, the cases where a velocity
  is left alone, the axis independence, the offset and position bounds, and
  that the solid axis neighbour the player moves towards is never entered.
  The clamp looks along each axis separately, so a diagonal step can still
  cut a corner into a solid diagonal cell; `DiagonalWallEntered` shows one.
- **Map and flat index** (`grid.dfy`). The 8x8 map is a `seq<int>`. C's
  `(int)` cast truncates toward zero. The only bounds test the stepping loops
  apply is on the flat index `row * 8 + col`, so a column past the edge reads
  the next row. The border cells are walls, which keeps a player who starts
  inside the map inside it.
- **Angles** (`angles.dfy`). The truncated decimal constants PI, PI2, PI3, TAU
  and FOV, and the single add-or-subtract-TAU wrap. `tan`, `cos` and `sin` are
  the three fields of a `Trig` value: arbitrary total functions on the reals.
- **Ray fan** (`raycaster.dfy`):
  - `CastRays` is the `for` loop over rays.
  - `TraceRay` handles one ray through two phases, `HorizontalCrossing` and
    `VerticalCrossing`. Each runs the branch the ray angle selects.
  - `March` is the stepping `while` loop, proved to stop at the first step
    whose flat index leaves the map or names a wall.
  - The nearer-hit choice and the perpendicular distance follow.
  - Every method is proved equal to a specification function (`Run`,
    `CastRay`, the `Fan` predicate). The properties are lemmas about those
    functions.
  - `rayX`/`rayY` persist across rays, starting at (-1, -1). When a branch
    does not run, its candidate is whatever the previous search left there.
    The model keeps this.

On equal squared distances the horizontal candidate is kept, because the
comparison at main.c:171-172 is a strict `>`. The vertical candidate wins only
when strictly nearer.

Because only the flat index is bounds-checked, a stepping loop need not stop
at all: a search whose step is one row down and eight columns left keeps the
flat index fixed. `SearchNeverStops` exhibits such a ray from the spawn cell.

## Model

| member | source | states |
|---|---|---|
| Angles.Wrap | main.c:228-233 | The heading, or a ray angle, is shifted by at most one TAU. Any value in [-TAU, 2 TAU) lands in [0, TAU), and a value already in [0, TAU) is unchanged. |
| Angles.WrapAdvance | main.c:91-96 | Wrapping after each increment equals adding the increments and wrapping once, while the total stays within one turn of [0, TAU). |
| Grid.Trunc | main.c:107 | The `(int)` cast truncates toward zero. It rounds down for non-negative values and up for negative ones. |
| Grid.TopAndBottomWalled | main.c:39-48 | Every cell of the top and bottom rows is a wall. |
| Grid.LeftColumnWalled | main.c:39-48 | Every cell of the leftmost column is a wall. |
| Grid.RightColumnWalled | main.c:39-48 | Every cell of the rightmost column is a wall. |
| Grid.ColumnOverflowWraps | main.c:107-111 | Only the flat index is bounds-checked. A probe one map width to the right, one row up, reads the same cell. |
| Movement.ClampAxis | main.c:236-262 | If the neighbour ahead is solid and the step passes the margin, offset + velocity lands exactly on 1 - hitDist (forward) or on hitDist (backward). The velocity changes iff that condition holds. It never grows in the direction of travel and stays inside (-1, 1). |
| Movement.Carry | main.c:264-280 | Cell + offset is preserved exactly. With the offset in [0, 1) and the velocity in (-1, 1), the new offset is in [0, 1) and the cell moves by at most one. |
| Movement.HeadingStaysWrapped | main.c:228-233 | A heading in [0, TAU) stays there after a turn of less than one TAU. It differs from heading + rvel by at most one TAU. |
| Movement.TurnDoesNotAffectMotion | main.c:225-233 | The velocity is taken before the turn is added. Changing rvel changes neither this frame's velocities nor the new cells and offsets. |
| Movement.ClampStopsAtMargin | main.c:236-262 | In each of the four directions, moving into a solid neighbour past the margin leaves offset + velocity at the margin. The absolute position ends hitDist short of the shared cell boundary. |
| Movement.ClampLeavesVelocity | main.c:236-262 | An axis velocity is unchanged when it is zero, when the neighbour it moves towards is open, or when the step stays within the margin. |
| Movement.ClampAxesIndependent | main.c:236-262 | The x clamp never reads the y offset or the y velocity, and the y clamp never reads the x ones. |
| Movement.StepKeepsOffsetsInCell | main.c:264-280 | With offsets in [0, 1), margin in [0, 1) and velocities shorter than a cell: offsets stay in [0, 1), each cell index moves by at most one, and the absolute position moves by exactly the clamped velocity. |
| Movement.SolidNeighbourNotEntered | main.c:236-280 | With a margin in (0, 1) and offsets in [0, 1), moving towards a solid neighbour never changes the cell index on that axis. |
| Movement.DiagonalWallEntered | main.c:236-280 | The clamp is per axis. From cell (2, 1) at offsets (0.99, 0.99), with margin 0.06 and velocity (0.02, 0.02), both axis neighbours are open, and the step ends in cell (3, 2), which is a wall. |
| Movement.AdvanceStaysInInterior | main.c:236-280 | From a cell off the border, a step keeps the offsets in [0, 1) and ends in a cell off the border. The conditions: offsets in [0, 1), a margin in (0, 1), a velocity shorter than a cell, and solid neighbours on the border side. |
| Movement.StepStaysInInterior | main.c:224-281 | From a cell off the border, a frame's four neighbour reads lie inside the map. It ends in a cell off the border whose reads lie inside the map too, so the next frame's `movePlayer` indexes the map in range. |
| Movement.Player.Spawn | main.c:341-353 | The start-up record: cell (1, 1), offsets 0.5, at rest, facing 0, maxSpeed 0.02, rspeed 0.03, hitDist 0.06. Its cell is off the border, so the first `movePlayer` reads inside the map. |
| Movement.Player.Move | main.c:224-281 | The new record equals `Step` of the old one. Step takes velocity from the old heading, then applies the wrapped turn, both clamps against the four neighbours of the old cell, and the carry on both axes. |
| Movement.Player.Turn | main.c:228-233 | The heading becomes Wrap(heading + rvel). |
| Movement.Player.ClampX | main.c:236-248 | xvel becomes the clamp of the old xvel against the cells east and west of the player. |
| Movement.Player.ClampY | main.c:250-262 | yvel becomes the clamp of the old yvel against the cells south and north of the player. |
| Movement.Player.IntegrateX | main.c:264-271 | (x, dx) becomes the carry of dx + xvel into x. |
| Movement.Player.IntegrateY | main.c:273-280 | (y, dy) becomes the carry of dy + yvel into y. |
| RayCaster.ProbeClosedForm | main.c:108-112 | After k repeated additions the probe is at start + k * step. |
| RayCaster.ProbeStaysOnLine | main.c:99-127 | A search that starts on a line and steps parallel to it stays on that line. |
| RayCaster.StopStep | main.c:107-112 | The step count is the first step whose probed flat index (`MapPos`: the truncated row times 8 plus the truncated column, with the search's row or column correction) is not `Walkable`: outside [0, 64) or naming a wall (or the fuel cap). Every earlier index was in range and open. |
| RayCaster.WalkableRunsToCap | main.c:108-112 | If every probe from step k on is walkable, the search runs until the cap. |
| RayCaster.DiagonalProbeIsFixed | main.c:107-111 | A search from (-2.5, 2) stepping (-8, 1) probes flat index 14 at every step, and that cell is open. |
| RayCaster.SearchNeverStops | main.c:99-112 | From the spawn pose, a ray whose tangent is -1/8, at an angle between PI2 and PI, starts the horizontal search at (-2.5, 2) with step (-8, 1). No step stops it, so the capped search returns the point `fuel` steps out. |
| RayCaster.March | main.c:107-112 | The stepping loop stops at the first non-walkable step, every step before it was walkable, and it returns the point the search specification `Run` gives. |
| RayCaster.HorizontalSearch | main.c:99-128 | A horizontal search exists iff 0 < angle and angle != PI. It steps one row down-map for angles below PI and one row up-map above. |
| RayCaster.VerticalSearch | main.c:134-163 | A vertical search exists iff the angle is neither PI2 nor PI3. It steps one column right outside (PI2, PI3) and one column left inside. |
| RayCaster.HorizontalSearchOnRay | main.c:99-120 | The horizontal search starts on the ray's line through the player, on the first horizontal grid line ahead of it, and steps along that line. |
| RayCaster.VerticalSearchOnRay | main.c:134-155 | The vertical search starts on the ray's line through the player, on the first vertical grid line ahead of it, and steps along that line. |
| RayCaster.HorizontalCrossing | main.c:99-131 | rayX/rayY after the horizontal phase: the horizontal search's stop point, or the incoming rayX/rayY when the angle is 0 or PI. |
| RayCaster.VerticalCrossing | main.c:134-163 | rayX/rayY after the vertical phase: the vertical search's stop point, or the horizontal candidate unchanged when the angle is PI2 or PI3. |
| RayCaster.TraceRay | main.c:91-180 | One ray equals `CastRay`: both candidates, the nearer-hit choice and the perpendicular distance. |
| RayCaster.NearerHitSelection | main.c:166-180 | The vertical candidate wins iff its squared distance is strictly smaller; on a tie the horizontal one is kept. The winner is never farther than either candidate. The perpendicular distance uses the player's heading, not the ray angle. |
| RayCaster.DegenerateAnglesReuseCarry | main.c:78-79 | At angle 0 or PI the horizontal candidate is the point the previous ray left in rayX/rayY, or (-1, -1) for the first ray. At PI2 or PI3 the vertical candidate equals the horizontal one. |
| RayCaster.CandidatesOnRayLine | main.c:99-163 | When the horizontal search runs, both candidates and the chosen hit lie on the ray's line through the player. |
| RayCaster.PerpDropsLateralOffset | main.c:175-178 | `Perp` is main.c:175/178's dot product of the hit offset with the heading vector. For a unit heading vector, a hit t units ahead and s units sideways has `Perp` equal to t. The sideways part drops out. |
| RayCaster.NearerWallIsTallerAndLighter | main.c:185-186 | `StripHeight` is 500 / perp, undefined at 0, and `Shade` is 220 - 15 * perp (main.c:185-186). For positive distances, a nearer wall gets a strictly taller strip and a strictly larger grey level. |
| RayCaster.ColumnsSideBySide | main.c:88-193 | Column i starts at i * (1280 / numRays) and ends where column i + 1 starts, without passing the screen width. The last column ends 1280 % numRays pixels short of the right edge. |
| RayCaster.FanLayout | main.c:88-193 | In a fan, column k has left edge k * (1280 / numRays) and width 1280 / numRays. |
| RayCaster.FanOffsetClosedForm | main.c:85-91 | k increments added one at a time equal k * increment. |
| RayCaster.FanSpan | main.c:85-91 | The increment FOV / (numRays + 1) is positive. Up to numRays of them sum to at least 0 and strictly less than FOV. |
| RayCaster.FanAngleStep | main.c:91-96 | For a heading in [0, TAU), wrapping the previous ray's wrapped angle plus the increment is the same as wrapping heading - FOV/2 plus i + 1 increments once. The result lies in [0, TAU). |
| RayCaster.FanAngleAt | main.c:86-96 | In a fan, column k's ray angle is in [0, TAU) and equals Wrap(heading - FOV/2 + k + 1 increments). |
| RayCaster.FanAngles | main.c:86-96 | The same holds for every column of a fan cast from a heading in [0, TAU). |
| RayCaster.RayAngleAsOffset | main.c:86-96 | For a heading in [0, TAU) and increments summing to less than FOV, ray i's angle as the loop computes it (`RayAngle`, wrapped after every increment) lies in [0, TAU) and equals heading - FOV/2 plus i + 1 increments, wrapped once. |
| RayCaster.RayAngleTimesIncrement | main.c:86-96 | The same, with the sum written as (i + 1) * increment. |
| RayCaster.RayAngleClosedForm | main.c:85-96 | For a heading in [0, TAU), ray i of numRays has angle Wrap(heading - FOV/2 + (i + 1) * FOV / (numRays + 1)), in [0, TAU). These are the angles at which CastRays requires the cotangent to be defined. |
| RayCaster.CastColumn | main.c:91-194 | One pass of the ray loop: the new angle is the previous one plus the increment, wrapped, and the column is the fan's next column. |
| RayCaster.CastRays | main.c:76-200 | Exactly numRays columns are produced, and each follows from the previous one. Its angle is the previous wrapped angle plus the increment, wrapped once. Its rayX/rayY input is what the previous ray left, starting from (-1, -1). Column i is at left edge i * (1280 / numRays) with width 1280 / numRays. |

## Left out

- The SDL window, renderer and event loop (main.c:322-340 and 354-444), with the key handling that sets `speed` and `rvel`. The model takes the commanded `speed` and `rvel` as they are in the record.
- Drawing is left out: `drawRay2D`, `drawMap2D`, `drawPlayer`, `drawSkybox`, `logPlayerInfo` and the render calls in the ray loop. The strip's vertical placement `HEIGHT / 2 - rayHeight / 2` is not modelled. The strip height `500 / perp` and grey level `220 - 15 * perp` are kept as plain formulas, with no clamp.
- StripHeight: where the perpendicular distance is 0, the float division yields an infinite height, which has no real value. The model returns `None` there.
- Float rounding is not modelled: every `float` is a mathematical real. The conversions of the float rectangle fields to SDL's `int` are also not modelled.
- `tan`, `cos` and `sin` are uninterpreted. PerpDropsLateralOffset assumes cos^2 + sin^2 = 1 for the heading it is about.
- CastRays requires `tan` to be non-zero at each ray angle it casts that is positive and not PI, because the code divides by it there. The predicate is `CotDefinedAt`, stated over the fan's angles by `CotDefinedOnFan`; RayAngleClosedForm gives those angles in closed form. HorizontalSearch, CastRay and TraceRay require it at their one angle. In C a zero tangent gives an infinite cotangent, which has no real value. A fan that contains the true tangent's zero at pi, which lies in (PI, TAU) because PI is truncated, is outside these contracts.
- March, StopStep, Run: the C stepping loops have no bound. Because only the flat index is checked, some rays never stop at all (`SearchNeverStops`); over the reals such a C loop runs forever. The model caps every search at `fuel` steps. When the cap is reached the search returns the point after `fuel` steps, an artefact of the cap, and StopStep's "first non-walkable step" only holds below the cap.
- Grid.Trunc and Grid.MapPos: integer width is not modelled. In C, `(int)` of a float outside the range of `int` is undefined behaviour, and `row * 8 + col` is 32-bit `int` arithmetic. The model's integers are unbounded. This matters for rays close to an axis, whose first crossing can lie beyond 2^31, and for a search that never stops.
- Player.Move requires all four neighbour flat indices of the player's cell to lie inside the 64-cell map. `movePlayer` indexes the map unchecked (main.c:237-257), so an index outside it is undefined behaviour in C. Spawn establishes this, and StepStaysInInterior shows a frame keeps it while each commanded velocity component is shorter than a cell. The model does not bound `cos` and `sin`, so that condition stays a premise.
- CastRays requires numRays > 0, since `WIDTH/numRays` divides by it. The unsigned wrap of `numRays + 1` at the largest `unsigned int` is not modelled.
- FanAngles and FanAngleStep state the closed-form ray angle only for a heading in [0, TAU). Otherwise the per-ray single wrap need not agree with the closed form, and CastRays then states only the per-ray recurrence.
