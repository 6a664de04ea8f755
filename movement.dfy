/** One frame of player movement: heading-derived velocity, heading wrap,
    per-axis clamp against a solid neighbour, and integration with carry. */
module Movement {
  import opened Angles
  import opened Grid

  /** A snapshot of every field of the player record. */
  datatype Kinematics = Kinematics(
    x: int, y: int,            // cell
    dx: real, dy: real,        // offset inside the cell
    xvel: real, yvel: real,
    rvel: real,                // commanded turn per frame
    speed: real,               // commanded speed per frame
    maxSpeed: real, rspeed: real,
    angle: real,               // heading
    hitDist: real)             // clearance kept from a wall

  /** Absolute position in grid units. */
  function Position(k: Kinematics): Point
  {
    Point(k.x as real + k.dx, k.y as real + k.dy)
  }

  /** The record the program starts from: centre of cell (1, 1), facing +x, at rest. */
  const SpawnState := Kinematics(1, 1, 0.5, 0.5, 0.0, 0.0, 0.0, 0.0, 0.02, 0.03, 0.0, 0.06)

  /** The cell is off the walled border of the map. */
  predicate InInterior(x: int, y: int)
  {
    1 <= x <= MapWidth - 2 && 1 <= y <= MapHeight - 2
  }

  /** All four neighbour reads of a movement step fall inside the map array. */
  predicate NeighboursInMap(x: int, y: int)
  {
    MapWidth <= Index(y, x) < MapWidth * MapHeight - MapWidth
  }

  /** Whether each of the four neighbours of the player's cell is solid
      (a non-zero cell counts as solid). */
  datatype Neighbours = Neighbours(xPlus: bool, xMinus: bool, yPlus: bool, yMinus: bool)

  function NeighboursOf(x: int, y: int): Neighbours
    requires NeighboursInMap(x, y)
  {
    Neighbours(Cells[Index(y, x + 1)] != 0, Cells[Index(y, x - 1)] != 0,
               Cells[Index(y + 1, x)] != 0, Cells[Index(y - 1, x)] != 0)
  }

  /** Velocity along one axis after the collision pre-clamp. aheadSolid is the
      neighbour in the positive direction, behindSolid the one in the negative. */
  function ClampAxis(offset: real, vel: real, hitDist: real, aheadSolid: bool, behindSolid: bool): (v: real)
    ensures vel > 0.0 && aheadSolid && offset + vel > 1.0 - hitDist ==> offset + v == 1.0 - hitDist
    ensures vel < 0.0 && behindSolid && offset + vel < hitDist ==> offset + v == hitDist
    ensures v != vel <==>
      (vel > 0.0 && aheadSolid && offset + vel > 1.0 - hitDist) ||
      (vel < 0.0 && behindSolid && offset + vel < hitDist)
    ensures vel > 0.0 ==> v <= vel
    ensures vel < 0.0 ==> v >= vel
    ensures 0.0 <= offset < 1.0 && 0.0 <= hitDist < 1.0 && -1.0 < vel < 1.0 ==> -1.0 < v < 1.0
  {
    if vel > 0.0 then
      if aheadSolid && offset + vel > 1.0 - hitDist then vel - (offset + vel - (1.0 - hitDist)) else vel
    else if vel < 0.0 then
      if behindSolid && offset + vel < hitDist then vel - (offset + vel - hitDist) else vel
    else vel
  }

  /** Adds vel to the offset and carries a whole cell into or out of the cell index. */
  function Carry(cell: int, offset: real, vel: real): (r: (int, real))
    ensures r.0 as real + r.1 == cell as real + offset + vel
    ensures 0.0 <= offset < 1.0 && -1.0 < vel < 1.0 ==>
      0.0 <= r.1 < 1.0 && cell - 1 <= r.0 <= cell + 1
  {
    var d := offset + vel;
    if d >= 1.0 then (cell + 1, d - 1.0)
    else if d < 0.0 then (cell - 1, d + 1.0)
    else (cell, d)
  }

  /** The new cell, offset and velocity along one axis. */
  datatype AxisMotion = AxisMotion(cell: int, offset: real, vel: real)

  /** Clamp, then integrate, along one axis; x and y are handled alike. */
  function MoveAxis(cell: int, offset: real, vel: real, hitDist: real,
                    aheadSolid: bool, behindSolid: bool): (m: AxisMotion)
  {
    var v := ClampAxis(offset, vel, hitDist, aheadSolid, behindSolid);
    var (c, o) := Carry(cell, offset, v);
    AxisMotion(c, o, v)
  }

  /** The velocity commanded this frame: speed along the current heading. */
  function Velocity(s: Kinematics, trig: Trig): Point
  {
    Point(s.speed * trig.cos(s.angle), s.speed * trig.sin(s.angle))
  }

  /** The movement step for a given commanded velocity v: turn, clamp each axis,
      integrate each axis. */
  function Advance(s: Kinematics, v: Point, n: Neighbours): (t: Kinematics)
  {
    var mx := MoveAxis(s.x, s.dx, v.x, s.hitDist, n.xPlus, n.xMinus);
    var my := MoveAxis(s.y, s.dy, v.y, s.hitDist, n.yPlus, n.yMinus);
    s.(x := mx.cell, dx := mx.offset, xvel := mx.vel,
       y := my.cell, dy := my.offset, yvel := my.vel,
       angle := Wrap(s.angle + s.rvel))
  }

  /** The whole movement step as a function of the state before it and of the
      solidity of the four neighbours of the player's cell. */
  function Step(s: Kinematics, trig: Trig, n: Neighbours): (t: Kinematics)
  {
    Advance(s, Velocity(s, trig), n)
  }

  /** A heading in [0, TAU) stays there after a turn of less than one full turn. */
  lemma HeadingStaysWrapped(s: Kinematics, v: Point, n: Neighbours)
    requires 0.0 <= s.angle < TAU && -TAU < s.rvel < TAU
    ensures 0.0 <= Advance(s, v, n).angle < TAU
    ensures Advance(s, v, n).angle == s.angle + s.rvel
         || Advance(s, v, n).angle == s.angle + s.rvel + TAU
         || Advance(s, v, n).angle == s.angle + s.rvel - TAU
  {
  }

  /** Velocity comes from the heading before this frame's turn is applied, so the
      turn rate cannot change this frame's motion. */
  lemma TurnDoesNotAffectMotion(s: Kinematics, trig: Trig, n: Neighbours, rvel: real)
    ensures var t, u := Step(s, trig, n), Step(s.(rvel := rvel), trig, n);
      t.xvel == u.xvel && t.yvel == u.yvel &&
      t.x == u.x && t.dx == u.dx && t.y == u.y && t.dy == u.dy
  {
    var s' := s.(rvel := rvel);
    assert Velocity(s', trig) == Velocity(s, trig);
  }

  /** Moving +x into a solid neighbour past the margin ends exactly hitDist short
      of that neighbour's boundary; -x, +y and -y likewise. */
  lemma ClampStopsAtMargin(s: Kinematics, v: Point, n: Neighbours)
    ensures var t := Advance(s, v, n);
      v.x > 0.0 && n.xPlus && s.dx + v.x > 1.0 - s.hitDist ==>
        s.dx + t.xvel == 1.0 - s.hitDist && Position(t).x == (s.x + 1) as real - s.hitDist
    ensures var t := Advance(s, v, n);
      v.x < 0.0 && n.xMinus && s.dx + v.x < s.hitDist ==>
        s.dx + t.xvel == s.hitDist && Position(t).x == s.x as real + s.hitDist
    ensures var t := Advance(s, v, n);
      v.y > 0.0 && n.yPlus && s.dy + v.y > 1.0 - s.hitDist ==>
        s.dy + t.yvel == 1.0 - s.hitDist && Position(t).y == (s.y + 1) as real - s.hitDist
    ensures var t := Advance(s, v, n);
      v.y < 0.0 && n.yMinus && s.dy + v.y < s.hitDist ==>
        s.dy + t.yvel == s.hitDist && Position(t).y == s.y as real + s.hitDist
  {
  }

  /** An axis velocity is left alone when it is zero, when the neighbour it moves
      towards is open, or when the step stays inside the margin. */
  lemma ClampLeavesVelocity(s: Kinematics, v: Point, n: Neighbours)
    ensures (v.x == 0.0 ||
             (v.x > 0.0 && (!n.xPlus || s.dx + v.x <= 1.0 - s.hitDist)) ||
             (v.x < 0.0 && (!n.xMinus || s.dx + v.x >= s.hitDist)))
            ==> Advance(s, v, n).xvel == v.x
    ensures (v.y == 0.0 ||
             (v.y > 0.0 && (!n.yPlus || s.dy + v.y <= 1.0 - s.hitDist)) ||
             (v.y < 0.0 && (!n.yMinus || s.dy + v.y >= s.hitDist)))
            ==> Advance(s, v, n).yvel == v.y
  {
  }

  /** The x clamp reads nothing of the y axis and the y clamp nothing of the x
      axis: changing one axis's offset and commanded velocity, each to any
      value, leaves the other axis's velocity as it was. */
  lemma ClampAxesIndependent(s: Kinematics, v: Point, n: Neighbours, offset: real, vel: real)
    ensures Advance(s.(dx := offset), v.(x := vel), n).yvel == Advance(s, v, n).yvel
    ensures Advance(s.(dy := offset), v.(y := vel), n).xvel == Advance(s, v, n).xvel
  {
  }

  /** With offsets in [0, 1) and axis velocities shorter than a cell, the offsets
      stay in [0, 1), each cell index moves by at most one, and the absolute
      position moves by exactly the clamped velocity. */
  lemma StepKeepsOffsetsInCell(s: Kinematics, v: Point, n: Neighbours)
    requires 0.0 <= s.dx < 1.0 && 0.0 <= s.dy < 1.0
    requires 0.0 <= s.hitDist < 1.0
    requires -1.0 < v.x < 1.0 && -1.0 < v.y < 1.0
    ensures var t := Advance(s, v, n);
      0.0 <= t.dx < 1.0 && 0.0 <= t.dy < 1.0 &&
      s.x - 1 <= t.x <= s.x + 1 && s.y - 1 <= t.y <= s.y + 1 &&
      Position(t) == Point(Position(s).x + t.xvel, Position(s).y + t.yvel)
  {
  }

  /** With a positive margin below one cell, the player never crosses into a
      solid neighbour along an axis it is moving on. */
  lemma SolidNeighbourNotEntered(s: Kinematics, v: Point, n: Neighbours)
    requires 0.0 <= s.dx < 1.0 && 0.0 <= s.dy < 1.0
    requires 0.0 < s.hitDist < 1.0
    ensures (v.x > 0.0 && n.xPlus) || (v.x < 0.0 && n.xMinus) ==> Advance(s, v, n).x == s.x
    ensures (v.y > 0.0 && n.yPlus) || (v.y < 0.0 && n.yMinus) ==> Advance(s, v, n).y == s.y
  {
  }

  /** The clamp only looks along each axis, so a diagonal step can still cut a
      corner into a solid cell: from the east-south corner of cell (2, 1), with
      both axis neighbours open, a step of 0.02 along each axis ends inside the
      wall at (3, 2). */
  lemma DiagonalWallEntered()
    ensures NeighboursInMap(2, 1)
    ensures var n := NeighboursOf(2, 1);
      var t := Advance(SpawnState.(x := 2, y := 1, dx := 0.99, dy := 0.99), Point(0.02, 0.02), n);
      !n.xPlus && !n.yPlus && t.x == 3 && t.y == 2 && Cells[Index(t.y, t.x)] != 0
  {
    UpperHalf();
    assert Cells[Index(1, 3)] == Cells[..32][11];
    assert Cells[Index(2, 2)] == Cells[..32][18];
    assert Cells[Index(2, 3)] == Cells[..32][19];
  }

  /** Along each axis, a step from an interior cell with offsets in [0, 1), a
      margin in (0, 1) and a commanded velocity shorter than a cell ends in an
      interior cell, provided the neighbours on the border side are solid. */
  lemma AdvanceStaysInInterior(s: Kinematics, v: Point, n: Neighbours)
    requires InInterior(s.x, s.y)
    requires 0.0 <= s.dx < 1.0 && 0.0 <= s.dy < 1.0 && 0.0 < s.hitDist < 1.0
    requires -1.0 < v.x < 1.0 && -1.0 < v.y < 1.0
    requires s.x == 1 ==> n.xMinus
    requires s.x == MapWidth - 2 ==> n.xPlus
    requires s.y == 1 ==> n.yMinus
    requires s.y == MapHeight - 2 ==> n.yPlus
    ensures var t := Advance(s, v, n);
      InInterior(t.x, t.y) && 0.0 <= t.dx < 1.0 && 0.0 <= t.dy < 1.0 && t.hitDist == s.hitDist
  {
    StepKeepsOffsetsInCell(s, v, n);
    SolidNeighbourNotEntered(s, v, n);
  }

  /** A frame from an interior cell reads only cells inside the map and, with
      offsets in [0, 1), a margin in (0, 1) and a commanded velocity shorter than
      a cell, ends in an interior cell again: the walled border is never
      entered, so the next frame's reads are inside the map too. */
  lemma StepStaysInInterior(s: Kinematics, trig: Trig)
    requires InInterior(s.x, s.y)
    requires 0.0 <= s.dx < 1.0 && 0.0 <= s.dy < 1.0 && 0.0 < s.hitDist < 1.0
    requires var v := Velocity(s, trig); -1.0 < v.x < 1.0 && -1.0 < v.y < 1.0
    ensures NeighboursInMap(s.x, s.y)
    ensures var t := Step(s, trig, NeighboursOf(s.x, s.y));
      InInterior(t.x, t.y) && NeighboursInMap(t.x, t.y) &&
      0.0 <= t.dx < 1.0 && 0.0 <= t.dy < 1.0 && t.hitDist == s.hitDist
  {
    LeftColumnWalled(s.y);
    RightColumnWalled(s.y);
    TopAndBottomWalled(s.x);
    AdvanceStaysInInterior(s, Velocity(s, trig), NeighboursOf(s.x, s.y));
  }

  /** The player record, updated in place once per frame. */
  class Player {
    var x: int
    var y: int
    var dx: real
    var dy: real
    var xvel: real
    var yvel: real
    var rvel: real
    var speed: real
    var maxSpeed: real
    var rspeed: real
    var angle: real
    var hitDist: real

    function State(): Kinematics
      reads this
    {
      Kinematics(x, y, dx, dy, xvel, yvel, rvel, speed, maxSpeed, rspeed, angle, hitDist)
    }

    /** The start-up player, in an interior cell so that the first Move may run. */
    constructor Spawn()
      ensures State() == SpawnState
      ensures InInterior(x, y) && NeighboursInMap(x, y)
    {
      x, y := 1, 1;
      dx, dy := 0.5, 0.5;
      xvel, yvel := 0.0, 0.0;
      rvel, speed := 0.0, 0.0;
      maxSpeed, rspeed := 0.02, 0.03;
      angle := 0.0;
      hitDist := 0.06;
    }

    /** One frame of movement, in the order the renderer applies it: velocity
        from the current heading, then the turn, then the x and y clamps, then
        the x and y integration. */
    method Move(trig: Trig)
      requires NeighboursInMap(x, y)
      modifies this
      ensures State() == Step(old(State()), trig, NeighboursOf(old(x), old(y)))
    {
      ghost var s0, nb := State(), NeighboursOf(x, y);
      ghost var v := Velocity(s0, trig);
      xvel := speed * trig.cos(angle);
      yvel := speed * trig.sin(angle);
      assert Point(xvel, yvel) == v;
      Turn();
      ClampX();
      ClampY();
      IntegrateX();
      IntegrateY();
      assert AxisMotion(x, dx, xvel) == MoveAxis(s0.x, s0.dx, v.x, s0.hitDist, nb.xPlus, nb.xMinus);
      assert AxisMotion(y, dy, yvel) == MoveAxis(s0.y, s0.dy, v.y, s0.hitDist, nb.yPlus, nb.yMinus);
    }

    /** Adds the turn rate to the heading and wraps it once. */
    method Turn()
      modifies this`angle
      ensures angle == Wrap(old(angle) + rvel)
    {
      angle := angle + rvel;
      if angle < 0.0 {
        angle := angle + TAU;
      } else if angle >= TAU {
        angle := angle - TAU;
      }
    }

    /** Pre-clamps xvel against the cell to the right or left of the player. */
    method ClampX()
      requires NeighboursInMap(x, y)
      modifies this`xvel
      ensures xvel == ClampAxis(dx, old(xvel), hitDist, NeighboursOf(x, y).xPlus, NeighboursOf(x, y).xMinus)
    {
      if xvel > 0.0 {
        if Cells[Index(y, x + 1)] != 0 {
          if dx + xvel > 1.0 - hitDist {
            xvel := xvel - (dx + xvel - (1.0 - hitDist));
          }
        }
      } else if xvel < 0.0 {
        if Cells[Index(y, x - 1)] != 0 {
          if dx + xvel < hitDist {
            xvel := xvel - (dx + xvel - hitDist);
          }
        }
      }
    }

    /** Pre-clamps yvel against the cell below or above the player. */
    method ClampY()
      requires NeighboursInMap(x, y)
      modifies this`yvel
      ensures yvel == ClampAxis(dy, old(yvel), hitDist, NeighboursOf(x, y).yPlus, NeighboursOf(x, y).yMinus)
    {
      if yvel > 0.0 {
        if Cells[Index(y + 1, x)] != 0 {
          if dy + yvel > 1.0 - hitDist {
            yvel := yvel - (dy + yvel - (1.0 - hitDist));
          }
        }
      } else if yvel < 0.0 {
        if Cells[Index(y - 1, x)] != 0 {
          if dy + yvel < hitDist {
            yvel := yvel - (dy + yvel - hitDist);
          }
        }
      }
    }

    /** Adds xvel to dx and carries a whole cell into x. */
    method IntegrateX()
      modifies this`x, this`dx
      ensures (x, dx) == Carry(old(x), old(dx), xvel)
    {
      dx := dx + xvel;
      if dx >= 1.0 {
        x := x + 1;
        dx := dx - 1.0;
      } else if dx < 0.0 {
        x := x - 1;
        dx := dx + 1.0;
      }
    }

    /** Adds yvel to dy and carries a whole cell into y. */
    method IntegrateY()
      modifies this`y, this`dy
      ensures (y, dy) == Carry(old(y), old(dy), yvel)
    {
      dy := dy + yvel;
      if dy >= 1.0 {
        y := y + 1;
        dy := dy - 1.0;
      } else if dy < 0.0 {
        y := y - 1;
        dy := dy + 1.0;
      }
    }
  }
}
