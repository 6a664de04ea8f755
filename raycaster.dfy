/** The non-drawing part of the per-frame ray fan: ray angles, the grid-line
    searches, nearer-hit selection, perpendicular distance and column layout. */
module RayCaster {
  import opened Angles
  import opened Grid
  import opened Movement

  const ScreenWidth: int := 1280
  const WallHeight: real := 500.0

  datatype Option<T> = None | Some(value: T)

  /** One grid-line search: the first crossing, what each step adds, and the
      -1 corrections its flat index applies (row for the upward-on-screen
      horizontal search, column for the leftward vertical search). */
  datatype Search = Search(start: Point, step: Point, rowShift: int, colShift: int)

  /** What one ray yields: its wrapped angle, the horizontal-line candidate, the
      vertical-line candidate (which the next ray inherits), the chosen hit,
      whether the vertical candidate won, and the perpendicular distance. */
  datatype RayHit = RayHit(angle: real, horizontal: Point, vertical: Point,
                           hit: Point, fromVertical: bool, perp: real)

  /** One screen column: the ray, its left edge and width in pixels, its grey
      shade, and its strip height (None where the division by a zero
      perpendicular distance has no real value). */
  datatype Column = Column(ray: RayHit, left: int, width: int, shade: real, height: Option<real>)

  /** The point reached after k steps of repeated addition. */
  function Probe(start: Point, step: Point, k: nat): Point
  {
    if k == 0 then start
    else
      var p := Probe(start, step, k - 1);
      Point(p.x + step.x, p.y + step.y)
  }

  /** Repeated addition reaches start + k * step. */
  lemma {:induction false} ProbeClosedForm(start: Point, step: Point, k: nat)
    ensures Probe(start, step, k) == Point(start.x + k as real * step.x, start.y + k as real * step.y)
  {
    if k > 0 {
      ProbeClosedForm(start, step, k - 1);
      assert k as real * step.x == (k - 1) as real * step.x + step.x;
      assert k as real * step.y == (k - 1) as real * step.y + step.y;
    }
  }

  /** p lies on the line through origin with direction dir. */
  ghost predicate OnLine(p: Point, origin: Point, dir: Point)
  {
    (p.x - origin.x) * dir.y == (p.y - origin.y) * dir.x
  }

  /** A search that starts on a line and steps parallel to it stays on it. */
  lemma {:induction false} ProbeStaysOnLine(start: Point, step: Point, origin: Point, dir: Point, k: nat)
    requires OnLine(start, origin, dir)
    requires OnLine(step, Point(0.0, 0.0), dir)
    ensures OnLine(Probe(start, step, k), origin, dir)
  {
    if k > 0 {
      ProbeStaysOnLine(start, step, origin, dir, k - 1);
      var p := Probe(start, step, k - 1);
      assert (p.x + step.x - origin.x) * dir.y == (p.x - origin.x) * dir.y + step.x * dir.y;
      assert (p.y + step.y - origin.y) * dir.x == (p.y - origin.y) * dir.x + step.y * dir.x;
    }
  }

  /** Flat index probed by search s after k steps. */
  function ProbePos(s: Search, k: nat): int
  {
    MapPos(Probe(s.start, s.step, k), s.rowShift, s.colShift)
  }

  /** The number of steps a search takes from step k: the first step at or after
      k whose index is outside the map or names a wall, or fuel if none is. */
  function StopStep(s: Search, k: nat, fuel: nat): (n: nat)
    requires k <= fuel
    ensures k <= n <= fuel
    ensures forall j :: k <= j < n ==> Walkable(ProbePos(s, j))
    ensures n < fuel ==> !Walkable(ProbePos(s, n))
    decreases fuel - k
  {
    if k == fuel || !Walkable(ProbePos(s, k)) then k else StopStep(s, k + 1, fuel)
  }

  /** Where a search stops. */
  function Run(s: Search, fuel: nat): Point
  {
    Probe(s.start, s.step, StopStep(s, 0, fuel))
  }

  /** The stepping loop: advance while the flat index is in the map and the cell
      is open, for at most fuel steps. */
  method March(s: Search, fuel: nat) returns (hit: Point, steps: nat)
    ensures steps <= fuel
    ensures forall j :: 0 <= j < steps ==> Walkable(ProbePos(s, j))
    ensures steps < fuel ==> !Walkable(ProbePos(s, steps))
    ensures steps == StopStep(s, 0, fuel) && hit == Run(s, fuel)
  {
    var rayX, rayY := s.start.x, s.start.y;
    var mapPos := MapPos(Point(rayX, rayY), s.rowShift, s.colShift);
    steps := 0;
    while steps < fuel && 0 <= mapPos < MapWidth * MapHeight && Cells[mapPos] == 0
      invariant steps <= fuel
      invariant Point(rayX, rayY) == Probe(s.start, s.step, steps)
      invariant mapPos == ProbePos(s, steps)
      invariant StopStep(s, steps, fuel) == StopStep(s, 0, fuel)
      decreases fuel - steps
    {
      rayX := rayX + s.step.x;
      rayY := rayY + s.step.y;
      mapPos := MapPos(Point(rayX, rayY), s.rowShift, s.colShift);
      steps := steps + 1;
    }
    hit := Point(rayX, rayY);
  }

  /** A search whose every probe from step k on is walkable runs until the cap. */
  lemma {:induction false} WalkableRunsToCap(s: Search, k: nat, fuel: nat)
    requires k <= fuel
    requires forall j: nat :: k <= j < fuel ==> Walkable(ProbePos(s, j))
    ensures StopStep(s, k, fuel) == fuel
    decreases fuel - k
  {
    if k < fuel {
      WalkableRunsToCap(s, k + 1, fuel);
    }
  }

  /** A search that starts at (-2.5, 2) and steps one row down and eight columns
      left: the row gains 8 in the flat index exactly as the column loses it, so
      every probe reads the open cell 14. */
  lemma DiagonalProbeIsFixed(k: nat)
    ensures ProbePos(Search(Point(-2.5, 2.0), Point(-8.0, 1.0), 0, 0), k) == 14
    ensures Walkable(14)
  {
    var p := Probe(Point(-2.5, 2.0), Point(-8.0, 1.0), k);
    ProbeClosedForm(Point(-2.5, 2.0), Point(-8.0, 1.0), k);
    assert p == Point(-2.5 - 8.0 * k as real, 2.0 + k as real);
    assert Trunc(p.y) == 2 + k;
    assert Trunc(p.x) == -2 - 8 * k;
    UpperHalf();
    assert Cells[14] == Cells[..32][14];
  }

  /** The horizontal-grid-line search for a ray angle, if the angle has one:
      none for an angle of 0 or PI. */
  function HorizontalSearch(angle: real, pose: Kinematics, trig: Trig): (r: Option<Search>)
    requires CotDefinedAt(trig, angle)
    ensures r.Some? <==> 0.0 < angle && angle != PI
    ensures r.Some? ==> r.value.step.y == (if angle < PI then 1.0 else -1.0)
  {
    if 0.0 < angle < PI then
      var arctanAngle := 1.0 / trig.tan(angle);
      Some(Search(Point(pose.x as real + pose.dx + (1.0 - pose.dy) * arctanAngle, pose.y as real + 1.0),
                  Point(arctanAngle, 1.0), 0, 0))
    else if angle > PI then
      var arctanAngle := 1.0 / trig.tan(angle);
      Some(Search(Point(pose.x as real + pose.dx - pose.dy * arctanAngle, pose.y as real),
                  Point(-arctanAngle, -1.0), -1, 0))
    else
      None
  }

  /** The vertical-grid-line search for a ray angle, if the angle has one:
      none for an angle of exactly PI2 or PI3. */
  function VerticalSearch(angle: real, pose: Kinematics, trig: Trig): (r: Option<Search>)
    ensures r.Some? <==> angle != PI2 && angle != PI3
    ensures r.Some? ==> r.value.step.x == (if angle < PI2 || angle > PI3 then 1.0 else -1.0)
  {
    if angle < PI2 || angle > PI3 then
      var tanAngle := trig.tan(angle);
      Some(Search(Point(pose.x as real + 1.0, pose.y as real + pose.dy + (1.0 - pose.dx) * tanAngle),
                  Point(1.0, tanAngle), 0, 0))
    else if angle > PI2 && angle < PI3 then
      var tanAngle := trig.tan(angle);
      Some(Search(Point(pose.x as real, pose.y as real + pose.dy - pose.dx * tanAngle),
                  Point(-1.0, -tanAngle), 0, -1))
    else
      None
  }

  /** The horizontal search starts on the ray's line through the player, on the
      first horizontal grid line ahead of it, and steps along that line. */
  lemma HorizontalSearchOnRay(angle: real, pose: Kinematics, trig: Trig)
    requires 0.0 < angle && angle != PI && trig.tan(angle) != 0.0
    ensures var s, dir := HorizontalSearch(angle, pose, trig).value, Point(1.0 / trig.tan(angle), 1.0);
      OnLine(s.start, Position(pose), dir) && OnLine(s.step, Point(0.0, 0.0), dir)
    ensures var s, pos := HorizontalSearch(angle, pose, trig).value, Position(pose);
      0.0 <= pose.dy < 1.0 ==>
        if angle < PI then pos.y < s.start.y <= pos.y + 1.0
        else pos.y - 1.0 < s.start.y <= pos.y
  {
    var c := 1.0 / trig.tan(angle);
    if angle < PI {
      assert (pose.x as real + pose.dx + (1.0 - pose.dy) * c) - (pose.x as real + pose.dx) == (1.0 - pose.dy) * c;
    } else {
      assert (pose.x as real + pose.dx - pose.dy * c) - (pose.x as real + pose.dx) == -pose.dy * c;
    }
  }

  /** The vertical search starts on the ray's line through the player, on the
      first vertical grid line ahead of it, and steps along that line. */
  lemma VerticalSearchOnRay(angle: real, pose: Kinematics, trig: Trig)
    requires angle != PI2 && angle != PI3
    ensures var s, dir := VerticalSearch(angle, pose, trig).value, Point(1.0, trig.tan(angle));
      OnLine(s.start, Position(pose), dir) && OnLine(s.step, Point(0.0, 0.0), dir)
    ensures var s, pos := VerticalSearch(angle, pose, trig).value, Position(pose);
      0.0 <= pose.dx < 1.0 ==>
        if angle < PI2 || angle > PI3 then pos.x < s.start.x <= pos.x + 1.0
        else pos.x - 1.0 < s.start.x <= pos.x
  {
    var t := trig.tan(angle);
    if angle < PI2 || angle > PI3 {
      assert (pose.y as real + pose.dy + (1.0 - pose.dx) * t) - (pose.y as real + pose.dy) == (1.0 - pose.dx) * t;
    } else {
      assert (pose.y as real + pose.dy - pose.dx * t) - (pose.y as real + pose.dy) == -pose.dx * t;
    }
  }

  /** The stepping loop can run forever: only the flat index is bounds-checked,
      and from the spawn cell a ray whose tangent is -1/8 (an angle between PI2
      and PI) starts a horizontal search that probes open index 14 at every
      step. No step count stops it, so what a search capped at fuel steps
      returns is the point fuel steps out, an artefact of the cap. */
  lemma SearchNeverStops(angle: real, trig: Trig, fuel: nat)
    requires PI2 < angle < PI && trig.tan(angle) == -0.125
    ensures var hs := HorizontalSearch(angle, SpawnState, trig);
      hs == Some(Search(Point(-2.5, 2.0), Point(-8.0, 1.0), 0, 0)) &&
      StopStep(hs.value, 0, fuel) == fuel &&
      Run(hs.value, fuel) == Point(-2.5 - 8.0 * fuel as real, 2.0 + fuel as real)
  {
    var s := Search(Point(-2.5, 2.0), Point(-8.0, 1.0), 0, 0);
    assert 1.0 / trig.tan(angle) == -8.0;
    assert HorizontalSearch(angle, SpawnState, trig).value.start.x == -2.5;
    forall j: nat | 0 <= j < fuel
      ensures Walkable(ProbePos(s, j))
    {
      DiagonalProbeIsFixed(j);
    }
    WalkableRunsToCap(s, 0, fuel);
    ProbeClosedForm(s.start, s.step, fuel);
  }

  function SqDist(from: Point, to: Point): real
  {
    (to.x - from.x) * (to.x - from.x) + (to.y - from.y) * (to.y - from.y)
  }

  /** Offset from pos to hit projected on the heading's unit vector. */
  function Perp(pos: Point, hit: Point, heading: real, trig: Trig): real
  {
    (hit.x - pos.x) * trig.cos(heading) + (hit.y - pos.y) * trig.sin(heading)
  }

  /** One ray, given the point the previous ray's searches left in rayX/rayY. */
  function CastRay(carry: Point, angle: real, pose: Kinematics, trig: Trig, fuel: nat): RayHit
    requires CotDefinedAt(trig, angle)
  {
    var hs, vs := HorizontalSearch(angle, pose, trig), VerticalSearch(angle, pose, trig);
    var h := if hs.Some? then Run(hs.value, fuel) else carry;
    var v := if vs.Some? then Run(vs.value, fuel) else h;
    var pos := Position(pose);
    var fromVertical := SqDist(pos, h) > SqDist(pos, v);
    var hit := if fromVertical then v else h;
    RayHit(angle, h, v, hit, fromVertical, Perp(pos, hit, pose.angle, trig))
  }

  /** Grey level: linear in the distance, unclamped. */
  function Shade(perp: real): real
  {
    220.0 - 15.0 * perp
  }

  /** Strip height: inversely proportional to the distance. */
  function StripHeight(perp: real): Option<real>
  {
    if perp == 0.0 then None else Some(WallHeight / perp)
  }

  /** The vertical candidate wins exactly when it is strictly nearer; on equal
      squared distances the horizontal one is kept. The winner is never farther
      than either candidate, and the perpendicular distance is measured along
      the player's heading, whatever the ray's own angle. */
  lemma NearerHitSelection(carry: Point, angle: real, pose: Kinematics, trig: Trig, fuel: nat)
    requires CotDefinedAt(trig, angle)
    ensures var r, pos := CastRay(carry, angle, pose, trig, fuel), Position(pose);
      (r.fromVertical <==> SqDist(pos, r.vertical) < SqDist(pos, r.horizontal)) &&
      r.hit == (if r.fromVertical then r.vertical else r.horizontal) &&
      SqDist(pos, r.hit) <= SqDist(pos, r.horizontal) &&
      SqDist(pos, r.hit) <= SqDist(pos, r.vertical) &&
      (SqDist(pos, r.vertical) == SqDist(pos, r.horizontal) ==> r.hit == r.horizontal) &&
      r.perp == Perp(pos, r.hit, pose.angle, trig)
  {
  }

  /** At an angle of exactly 0 or PI no horizontal search runs, so the
      horizontal candidate is whatever the previous ray left behind; at exactly
      PI2 or PI3 no vertical search runs and both candidates coincide. */
  lemma DegenerateAnglesReuseCarry(carry: Point, angle: real, pose: Kinematics, trig: Trig, fuel: nat)
    requires CotDefinedAt(trig, angle)
    ensures angle == 0.0 || angle == PI ==> CastRay(carry, angle, pose, trig, fuel).horizontal == carry
    ensures angle == PI2 || angle == PI3 ==>
      CastRay(carry, angle, pose, trig, fuel).vertical == CastRay(carry, angle, pose, trig, fuel).horizontal
  {
  }

  /** The lines with directions (1/t, 1) and (1, t) are the same line. */
  lemma CotLineIsTanLine(p: Point, origin: Point, t: real)
    requires t != 0.0
    requires OnLine(p, origin, Point(1.0 / t, 1.0))
    ensures OnLine(p, origin, Point(1.0, t))
  {
    var dx, dy, c := p.x - origin.x, p.y - origin.y, 1.0 / t;
    assert dx == dy * c;
    assert c * t == 1.0;
    assert dx * t == dy * (c * t);
  }

  /** When the horizontal search runs, both candidates and the chosen hit lie on
      the ray's line through the player. */
  lemma CandidatesOnRayLine(carry: Point, angle: real, pose: Kinematics, trig: Trig, fuel: nat)
    requires 0.0 < angle && angle != PI && trig.tan(angle) != 0.0
    ensures var r, dir := CastRay(carry, angle, pose, trig, fuel), Point(1.0, trig.tan(angle));
      OnLine(r.horizontal, Position(pose), dir) &&
      OnLine(r.vertical, Position(pose), dir) &&
      OnLine(r.hit, Position(pose), dir)
  {
    var pos, t := Position(pose), trig.tan(angle);
    var hs := HorizontalSearch(angle, pose, trig).value;
    HorizontalSearchOnRay(angle, pose, trig);
    ProbeStaysOnLine(hs.start, hs.step, pos, Point(1.0 / t, 1.0), StopStep(hs, 0, fuel));
    CotLineIsTanLine(Run(hs, fuel), pos, t);
    var vs := VerticalSearch(angle, pose, trig);
    if vs.Some? {
      VerticalSearchOnRay(angle, pose, trig);
      ProbeStaysOnLine(vs.value.start, vs.value.step, pos, Point(1.0, t), StopStep(vs.value, 0, fuel));
    }
  }

  /** Perpendicular distance: for a unit heading vector (cos, sin), a hit t units
      ahead along the heading and s units across it is at distance t; the
      sideways offset drops out, which is what removes fisheye distortion. */
  lemma PerpDropsLateralOffset(pos: Point, heading: real, trig: Trig, t: real, s: real)
    requires var c, n := trig.cos(heading), trig.sin(heading); c * c + n * n == 1.0
    ensures var c, n := trig.cos(heading), trig.sin(heading);
      Perp(pos, Point(pos.x + t * c - s * n, pos.y + t * n + s * c), heading, trig) == t
  {
    var c, n := trig.cos(heading), trig.sin(heading);
    calc {
      (t * c - s * n) * c + (t * n + s * c) * n;
      t * (c * c + n * n) + s * (c * n - n * c);
      t;
    }
  }

  /** Nearer walls are drawn taller and lighter. */
  lemma NearerWallIsTallerAndLighter(near: real, far: real)
    requires 0.0 < near < far
    ensures StripHeight(near).Some? && StripHeight(far).Some?
    ensures StripHeight(near).value > StripHeight(far).value
    ensures Shade(near) > Shade(far)
  {
    assert WallHeight / near * near == WallHeight;
    assert WallHeight / far * far == WallHeight;
    assert WallHeight / near * far > WallHeight / near * near;
  }

  lemma MulMonotone(a: int, b: int, w: nat)
    requires a <= b
    ensures a * w <= b * w
  {
    assert b * w - a * w == (b - a) * w;
  }

  /** Columns are ScreenWidth / numRays pixels wide (integer division), laid left
      to right without gaps or overlap, and stay on screen. The last one ends
      ScreenWidth % numRays pixels short of the right edge, which no column
      covers; one ray fills the screen. */
  lemma ColumnsSideBySide(numRays: nat, i: nat)
    requires 0 < numRays && i < numRays
    ensures var w := ScreenWidth / numRays;
      0 <= i * w && i * w + w <= ScreenWidth && (i + 1) * w == i * w + w
    ensures numRays * (ScreenWidth / numRays) == ScreenWidth - ScreenWidth % numRays
    ensures numRays == 1 ==> ScreenWidth / numRays == ScreenWidth
  {
    var w := ScreenWidth / numRays;
    assert 0 <= w;
    assert numRays * w <= ScreenWidth;
    assert (i + 1) * w == i * w + w;
    MulMonotone(i + 1, numRays, w);
  }

  /** The sum of k ray-angle increments, added one at a time as the loop does. */
  function FanOffset(k: nat, inc: real): real
  {
    if k == 0 then 0.0 else FanOffset(k - 1, inc) + inc
  }

  /** k increments added one at a time make k times the increment. */
  lemma {:induction false} FanOffsetClosedForm(k: nat, inc: real)
    ensures FanOffset(k, inc) == k as real * inc
  {
    if k > 0 {
      FanOffsetClosedForm(k - 1, inc);
      assert k as real * inc == (k - 1) as real * inc + inc;
    }
  }

  /** The ray-angle increment, summed over at most numRays rays, stays strictly
      inside the field of view. */
  lemma FanSpan(numRays: nat, m: nat, inc: real)
    requires m <= numRays
    requires inc == FOV / (numRays + 1) as real
    ensures 0.0 < inc && 0.0 <= FanOffset(m, inc) < FOV
  {
    var n1 := (numRays + 1) as real;
    FanOffsetClosedForm(m, inc);
    assert inc * n1 == FOV;
    assert 0.0 <= m as real * inc < n1 * inc by {
      assert 0.0 <= m as real < n1;
    }
  }

  /** Wrapping after every increment agrees with wrapping the pre-wrap angle
      heading - FOV/2 + (i + 1) increments once. */
  lemma FanAngleStep(heading: real, inc: real, i: nat, prev: real)
    requires 0.0 <= heading < TAU
    requires 0.0 < inc && 0.0 <= FanOffset(i, inc) && FanOffset(i + 1, inc) < FOV
    requires prev == if i == 0 then heading - FOV / 2.0
                     else Wrap(heading - FOV / 2.0 + FanOffset(i, inc))
    ensures Wrap(prev + inc) == Wrap(heading - FOV / 2.0 + FanOffset(i + 1, inc))
    ensures 0.0 <= Wrap(prev + inc) < TAU
  {
    if i > 0 {
      WrapAdvance(heading - FOV / 2.0 + FanOffset(i, inc), inc);
    }
  }

  /** Column i of the fan from the angle and rayX/rayY left by column i - 1. */
  function NextColumn(i: nat, numRays: nat, prevAngle: real, carry: Point,
                      pose: Kinematics, trig: Trig, fuel: nat): Column
    requires 0 < numRays && CotDefinedAt(trig, Wrap(prevAngle + FOV / (numRays + 1) as real))
  {
    var ray := CastRay(carry, Wrap(prevAngle + FOV / (numRays + 1) as real), pose, trig, fuel);
    Column(ray, i * (ScreenWidth / numRays), ScreenWidth / numRays, Shade(ray.perp), StripHeight(ray.perp))
  }

  /** The ray angle column i starts from before its increment: the heading
      minus half the field of view for the first column, else the previous
      column's angle. */
  function AngleBefore(columns: seq<Column>, i: nat, pose: Kinematics): real
    requires i <= |columns|
  {
    if i == 0 then pose.angle - FOV / 2.0 else columns[i - 1].ray.angle
  }

  /** rayX/rayY as column i finds them: -1, -1 for the first column, else the
      previous column's vertical candidate. */
  function CarryBefore(columns: seq<Column>, i: nat): Point
    requires i <= |columns|
  {
    if i == 0 then Point(-1.0, -1.0) else columns[i - 1].ray.vertical
  }

  /** Column i follows from the one before it, at an angle whose cotangent is
      defined. */
  ghost predicate Follows(columns: seq<Column>, i: nat, numRays: nat, pose: Kinematics, trig: Trig, fuel: nat)
    requires 0 < numRays && i < |columns|
  {
    CotDefinedAt(trig, Wrap(AngleBefore(columns, i, pose) + FOV / (numRays + 1) as real)) &&
    columns[i] == NextColumn(i, numRays, AngleBefore(columns, i, pose), CarryBefore(columns, i), pose, trig, fuel)
  }

  /** Every column follows from the one before it. */
  ghost predicate Fan(columns: seq<Column>, numRays: nat, pose: Kinematics, trig: Trig, fuel: nat)
    requires 0 < numRays
  {
    forall i: nat :: i < |columns| ==> Follows(columns, i, numRays, pose, trig, fuel)
  }

  /** Appending the column that follows from the last one keeps the fan. */
  lemma FanExtends(columns: seq<Column>, numRays: nat, pose: Kinematics, trig: Trig, fuel: nat, next: Column)
    requires 0 < numRays
    requires Fan(columns, numRays, pose, trig, fuel)
    requires CotDefinedAt(trig, Wrap(AngleBefore(columns, |columns|, pose) + FOV / (numRays + 1) as real))
    requires next == NextColumn(|columns|, numRays, AngleBefore(columns, |columns|, pose),
                                CarryBefore(columns, |columns|), pose, trig, fuel)
    ensures Fan(columns + [next], numRays, pose, trig, fuel)
  {
    var all := columns + [next];
    forall i: nat | i < |all|
      ensures Follows(all, i, numRays, pose, trig, fuel)
    {
      var angle, carry := AngleBefore(columns, i, pose), CarryBefore(columns, i);
      assert AngleBefore(all, i, pose) == angle && CarryBefore(all, i) == carry;
      if i < |columns| {
        assert Follows(columns, i, numRays, pose, trig, fuel);
        assert all[i] == columns[i] == NextColumn(i, numRays, angle, carry, pose, trig, fuel);
      } else {
        assert all[i] == next;
      }
    }
  }

  /** Column k of a fan starts k column widths from the left edge. */
  lemma FanLayout(columns: seq<Column>, numRays: nat, pose: Kinematics, trig: Trig, fuel: nat)
    requires 0 < numRays
    requires Fan(columns, numRays, pose, trig, fuel)
    ensures forall k :: 0 <= k < |columns| ==>
      columns[k].left == k * (ScreenWidth / numRays) && columns[k].width == ScreenWidth / numRays
  {
    forall k | 0 <= k < |columns|
      ensures columns[k].left == k * (ScreenWidth / numRays) && columns[k].width == ScreenWidth / numRays
    {
      assert Follows(columns, k, numRays, pose, trig, fuel);
    }
  }

  /** The horizontal-grid-line phase of one ray: rayX/rayY after it, which is
      carry when the angle has no horizontal search. */
  method HorizontalCrossing(carry: Point, rayAngle: real, pose: Kinematics, trig: Trig, fuel: nat)
    returns (crossing: Point)
    requires CotDefinedAt(trig, rayAngle)
    ensures var hs := HorizontalSearch(rayAngle, pose, trig);
      crossing == if hs.Some? then Run(hs.value, fuel) else carry
  {
    crossing := carry;
    var steps: nat;
    if rayAngle > 0.0 && rayAngle < PI {
      var arctanAngle := 1.0 / trig.tan(rayAngle);
      var search := Search(Point(pose.x as real + pose.dx + (1.0 - pose.dy) * arctanAngle, pose.y as real + 1.0),
                           Point(arctanAngle, 1.0), 0, 0);
      assert HorizontalSearch(rayAngle, pose, trig).value.start.x == search.start.x;
      assert HorizontalSearch(rayAngle, pose, trig) == Some(search);
      crossing, steps := March(search, fuel);
    } else if rayAngle > PI {
      var arctanAngle := 1.0 / trig.tan(rayAngle);
      var search := Search(Point(pose.x as real + pose.dx - pose.dy * arctanAngle, pose.y as real),
                           Point(-arctanAngle, -1.0), -1, 0);
      assert HorizontalSearch(rayAngle, pose, trig).value.start.x == search.start.x;
      assert HorizontalSearch(rayAngle, pose, trig) == Some(search);
      crossing, steps := March(search, fuel);
    } else {
      assert HorizontalSearch(rayAngle, pose, trig).None?;
    }
  }

  /** The vertical-grid-line phase of one ray: rayX/rayY after it, unchanged
      from the horizontal phase when the angle has no vertical search. */
  method VerticalCrossing(carry: Point, rayAngle: real, pose: Kinematics, trig: Trig, fuel: nat)
    returns (crossing: Point)
    ensures var vs := VerticalSearch(rayAngle, pose, trig);
      crossing == if vs.Some? then Run(vs.value, fuel) else carry
  {
    crossing := carry;
    var steps: nat;
    if rayAngle < PI2 || rayAngle > PI3 {
      var tanAngle := trig.tan(rayAngle);
      var search := Search(Point(pose.x as real + 1.0, pose.y as real + pose.dy + (1.0 - pose.dx) * tanAngle),
                           Point(1.0, tanAngle), 0, 0);
      assert VerticalSearch(rayAngle, pose, trig).value.start.y == search.start.y;
      assert VerticalSearch(rayAngle, pose, trig) == Some(search);
      crossing, steps := March(search, fuel);
    } else if rayAngle > PI2 && rayAngle < PI3 {
      var tanAngle := trig.tan(rayAngle);
      var search := Search(Point(pose.x as real, pose.y as real + pose.dy - pose.dx * tanAngle),
                           Point(-1.0, -tanAngle), 0, -1);
      assert VerticalSearch(rayAngle, pose, trig).value.start.y == search.start.y;
      assert VerticalSearch(rayAngle, pose, trig) == Some(search);
      crossing, steps := March(search, fuel);
    } else {
      assert VerticalSearch(rayAngle, pose, trig).None?;
    }
  }

  /** One ray of the fan: both grid-line searches, the nearer-hit choice and the
      perpendicular distance. carry is rayX/rayY as the previous ray left them. */
  method TraceRay(carry: Point, rayAngle: real, pose: Kinematics, trig: Trig, fuel: nat) returns (ray: RayHit)
    requires CotDefinedAt(trig, rayAngle)
    ensures ray == CastRay(carry, rayAngle, pose, trig, fuel)
  {
    var horizontal := HorizontalCrossing(carry, rayAngle, pose, trig, fuel);
    var vertical := VerticalCrossing(horizontal, rayAngle, pose, trig, fuel);

    // keep the nearer candidate
    var pos := Position(pose);
    var fromVertical := SqDist(pos, horizontal) > SqDist(pos, vertical);
    var final := horizontal;
    var perpRayDist: real;
    if fromVertical {
      final := vertical;
      perpRayDist := Perp(pos, vertical, pose.angle, trig);
    } else {
      perpRayDist := Perp(pos, horizontal, pose.angle, trig);
    }
    ray := RayHit(rayAngle, horizontal, vertical, final, fromVertical, perpRayDist);
  }

  /** Column k carries the ray angle heading - FOV/2 plus k + 1 increments,
      wrapped once into [0, TAU). */
  ghost predicate AngleAt(columns: seq<Column>, k: nat, heading: real, inc: real)
    requires k < |columns|
  {
    0.0 <= columns[k].ray.angle < TAU &&
    columns[k].ray.angle == Wrap(heading - FOV / 2.0 + FanOffset(k + 1, inc))
  }

  /** Each column's ray angle is the previous one plus the increment, wrapped. */
  lemma FanColumnAngle(columns: seq<Column>, numRays: nat, pose: Kinematics, trig: Trig, fuel: nat, k: nat)
    requires 0 < numRays
    requires Fan(columns, numRays, pose, trig, fuel)
    requires k < |columns|
    ensures columns[k].ray.angle == Wrap(AngleBefore(columns, k, pose) + FOV / (numRays + 1) as real)
  {
    assert Follows(columns, k, numRays, pose, trig, fuel);
  }

  /** Column k of a fan carries its ray angle as the sum of the increments. */
  lemma {:induction false} FanAngleAt(columns: seq<Column>, numRays: nat, pose: Kinematics, trig: Trig, fuel: nat, k: nat)
    requires 0 < numRays
    requires Fan(columns, numRays, pose, trig, fuel)
    requires k < |columns| <= numRays && 0.0 <= pose.angle < TAU
    ensures AngleAt(columns, k, pose.angle, FOV / (numRays + 1) as real)
    decreases k
  {
    var prev, inc := AngleBefore(columns, k, pose), FOV / (numRays + 1) as real;
    FanColumnAngle(columns, numRays, pose, trig, fuel, k);
    FanSpan(numRays, k, inc);
    FanSpan(numRays, k + 1, inc);
    if k > 0 {
      FanAngleAt(columns, numRays, pose, trig, fuel, k - 1);
      assert AngleAt(columns, k - 1, pose.angle, inc);
    }
    FanAngleStep(pose.angle, inc, k, prev);
  }

  /** Every ray angle of a fan lies in [0, TAU) and is the heading minus half
      the field of view plus k + 1 increments of FOV / (numRays + 1), wrapped
      once (FanOffsetClosedForm turns the sum into (k + 1) * increment). */
  lemma FanAngles(columns: seq<Column>, numRays: nat, pose: Kinematics, trig: Trig, fuel: nat)
    requires 0 < numRays
    requires Fan(columns, numRays, pose, trig, fuel)
    requires |columns| <= numRays && 0.0 <= pose.angle < TAU
    ensures forall k :: 0 <= k < |columns| ==>
      0.0 <= columns[k].ray.angle < TAU &&
      columns[k].ray.angle == Wrap(pose.angle - FOV / 2.0 + FanOffset(k + 1, FOV / (numRays + 1) as real))
  {
    var inc := FOV / (numRays + 1) as real;
    forall k | 0 <= k < |columns|
      ensures 0.0 <= columns[k].ray.angle < TAU
      ensures columns[k].ray.angle == Wrap(pose.angle - FOV / 2.0 + FanOffset(k + 1, inc))
    {
      FanAngleAt(columns, numRays, pose, trig, fuel, k);
      assert AngleAt(columns, k, pose.angle, inc);
    }
  }

  /** The angle of ray i as the loop computes it: the heading minus half the
      field of view, then one increment per ray, wrapped after each. */
  function RayAngle(heading: real, inc: real, i: nat): real
  {
    Wrap((if i == 0 then heading - FOV / 2.0 else RayAngle(heading, inc, i - 1)) + inc)
  }

  /** Ray i's angle is the previous ray's (or the fan's starting angle) plus
      the increment, wrapped. */
  lemma RayAngleStep(heading: real, inc: real, i: nat, prev: real)
    requires prev == if i == 0 then heading - FOV / 2.0 else RayAngle(heading, inc, i - 1)
    ensures RayAngle(heading, inc, i) == Wrap(prev + inc)
  {
  }

  /** Ray i's angle, as the loop computes it, is the fan's sum of increments
      wrapped once, as long as those increments stay inside the field of view. */
  lemma {:induction false} RayAngleAsOffset(heading: real, inc: real, i: nat)
    requires 0.0 <= heading < TAU
    requires 0.0 < inc && FanOffset(i + 1, inc) < FOV
    ensures 0.0 <= RayAngle(heading, inc, i) < TAU
    ensures RayAngle(heading, inc, i) == Wrap(heading - FOV / 2.0 + FanOffset(i + 1, inc))
    decreases i
  {
    FanOffsetClosedForm(i, inc);
    assert 0.0 <= i as real * inc;
    if i > 0 {
      RayAngleAsOffset(heading, inc, i - 1);
    }
    FanAngleStep(heading, inc, i, if i == 0 then heading - FOV / 2.0 else RayAngle(heading, inc, i - 1));
  }

  /** The wrapped angle of ray i, in closed form. */
  lemma WrappedOffsetClosedForm(heading: real, inc: real, i: nat)
    ensures Wrap(heading - FOV / 2.0 + FanOffset(i + 1, inc)) == Wrap(heading - FOV / 2.0 + (i + 1) as real * inc)
  {
    FanOffsetClosedForm(i + 1, inc);
    assert FanOffset(i + 1, inc) == (i + 1) as real * inc;
  }

  /** The same with the sum of increments in closed form. */
  lemma RayAngleTimesIncrement(heading: real, inc: real, i: nat)
    requires 0.0 <= heading < TAU
    requires 0.0 < inc && FanOffset(i + 1, inc) < FOV
    ensures 0.0 <= RayAngle(heading, inc, i) < TAU
    ensures RayAngle(heading, inc, i) == Wrap(heading - FOV / 2.0 + (i + 1) as real * inc)
  {
    RayAngleAsOffset(heading, inc, i);
    WrappedOffsetClosedForm(heading, inc, i);
  }

  /** For a heading in [0, TAU), the angle of ray i of numRays lies in
      [0, TAU) and is the heading minus half the field of view plus i + 1
      increments of FOV / (numRays + 1), wrapped once: these are the angles
      the cotangent must be defined at. */
  lemma RayAngleClosedForm(heading: real, numRays: nat, inc: real, i: nat)
    requires 0 < numRays && i < numRays && 0.0 <= heading < TAU
    requires inc == FOV / (numRays + 1) as real
    ensures 0.0 <= RayAngle(heading, inc, i) < TAU
    ensures RayAngle(heading, inc, i) == Wrap(heading - FOV / 2.0 + (i + 1) as real * inc)
  {
    FanSpan(numRays, i + 1, inc);
    RayAngleTimesIncrement(heading, inc, i);
  }

  /** The cotangent is defined at each of the first n ray angles. */
  ghost predicate CotDefinedOnFan(trig: Trig, heading: real, inc: real, n: nat)
  {
    forall i: nat :: i < n ==> CotDefinedAt(trig, RayAngle(heading, inc, i))
  }

  /** One pass of the ray loop: advance and wrap the ray angle, trace the ray
      and lay out its column. */
  method CastColumn(i: nat, numRays: nat, prevAngle: real, carry: Point, pose: Kinematics, trig: Trig, fuel: nat)
    returns (rayAngle: real, column: Column)
    requires 0 < numRays && CotDefinedAt(trig, Wrap(prevAngle + FOV / (numRays + 1) as real))
    ensures rayAngle == Wrap(prevAngle + FOV / (numRays + 1) as real) == column.ray.angle
    ensures column == NextColumn(i, numRays, prevAngle, carry, pose, trig, fuel)
  {
    var angleIncrement := FOV / (numRays + 1) as real;
    var rayWidth := ScreenWidth / numRays;
    rayAngle := prevAngle + angleIncrement;
    if rayAngle < 0.0 {
      rayAngle := rayAngle + TAU;
    } else if rayAngle >= TAU {
      rayAngle := rayAngle - TAU;
    }
    var ray := TraceRay(carry, rayAngle, pose, trig, fuel);
    column := Column(ray, i * rayWidth, rayWidth, Shade(ray.perp), StripHeight(ray.perp));
  }

  /** Casts numRays rays across the field of view from the player and lays out
      one column per ray, left to right. */
  method CastRays(numRays: nat, player: Player, trig: Trig, fuel: nat) returns (columns: seq<Column>)
    requires 0 < numRays
    requires CotDefinedOnFan(trig, player.angle, FOV / (numRays + 1) as real, numRays)
    ensures |columns| == numRays
    ensures Fan(columns, numRays, player.State(), trig, fuel)
    ensures forall i :: 0 <= i < numRays ==>
      columns[i].left == i * (ScreenWidth / numRays) && columns[i].width == ScreenWidth / numRays
  {
    var pose := player.State();
    var carry := Point(-1.0, -1.0);
    var angleIncrement := FOV / (numRays + 1) as real;
    var rayAngle := pose.angle - FOV / 2.0;
    columns := [];
    var i := 0;
    while i < numRays
      invariant 0 <= i <= numRays && |columns| == i
      invariant Fan(columns, numRays, pose, trig, fuel)
      invariant rayAngle == AngleBefore(columns, i, pose)
      invariant 0 < i ==> rayAngle == RayAngle(pose.angle, angleIncrement, i - 1)
      invariant carry == CarryBefore(columns, i)
    {
      RayAngleStep(pose.angle, angleIncrement, i, rayAngle);
      var column;
      rayAngle, column := CastColumn(i, numRays, rayAngle, carry, pose, trig, fuel);
      FanExtends(columns, numRays, pose, trig, fuel, column);
      carry := column.ray.vertical;
      columns := columns + [column];
      i := i + 1;
    }
    FanLayout(columns, numRays, pose, trig, fuel);
  }
}
