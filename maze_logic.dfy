/** The integer state of the tilt maze and what one tick does to it.

    Positions are pixels on the 128x64 display. A tick proposes the position moved
    by the truncated velocity, keeps it only if it hits no wall, clamps it to the
    screen, then tests the exit and the abort gesture. */
module MazeLogic {
  import opened DLDProject

  const ScreenWidth: int := 128
  const ScreenHeight: int := 64

  /** The exit is the right-most column, rows 50 to 60 inclusive. */
  const ExitTop: int := 50
  const ExitBottom: int := 60

  datatype Point = Point(x: int, y: int)

  /** Where the player (re)starts. */
  const Start: Point := Point(5, 35)

  /** The integer globals the maze updates: `playerX`, `playerY`, `isGameOn`, `currentMode`. */
  datatype Agent = Agent(pos: Point, gameOn: bool, mode: GameMode)

  /** What a tick is fed: the truncated velocity and the abort gesture. */
  datatype Input = Input(dx: int, dy: int, sharpTilt: bool)

  predicate InBounds(p: Point) {
    0 <= p.x < ScreenWidth && 0 <= p.y < ScreenHeight
  }

  /** `mazeCheckCollision`: three half-open rectangles and a one-pixel-high segment. */
  predicate Collides(x: int, y: int)
    ensures Collides(x, y) ==> 20 <= x < ScreenWidth - 10 && 10 <= y <= 50
  {
    (20 <= x < 30 && 10 <= y < 50) ||
    (40 <= x < 90 && 20 <= y < 30) ||
    (90 <= x < 100 && 30 <= y < 50) ||
    (70 <= x < ScreenWidth - 10 && y == 50)
  }

  /** A reference description of the maze: a list of half-open wall rectangles. */
  datatype Rect = Rect(left: int, top: int, right: int, bottom: int) {
    predicate Contains(x: int, y: int) {
      left <= x < right && top <= y < bottom
    }
  }

  const Walls: seq<Rect> := [
    Rect(20, 10, 30, 50),
    Rect(40, 20, 90, 30),
    Rect(90, 30, 100, 50),
    Rect(70, 50, ScreenWidth - 10, 51)
  ]

  /** The wall test agrees with the list of walls: a point collides exactly when
      some wall rectangle contains it. */
  lemma CollidesIffInSomeWall(x: int, y: int)
    ensures Collides(x, y) <==> exists i :: 0 <= i < |Walls| && Walls[i].Contains(x, y)
  {
    if Collides(x, y) {
      if 20 <= x < 30 && 10 <= y < 50 {
        assert Walls[0].Contains(x, y);
      } else if 40 <= x < 90 && 20 <= y < 30 {
        assert Walls[1].Contains(x, y);
      } else if 90 <= x < 100 && 30 <= y < 50 {
        assert Walls[2].Contains(x, y);
      } else {
        assert Walls[3].Contains(x, y);
      }
    }
  }

  /** Nothing on the border of the screen is a wall. */
  lemma BorderIsFree(p: Point)
    requires InBounds(p)
    requires p.x == 0 || p.x == ScreenWidth - 1 || p.y == 0 || p.y == ScreenHeight - 1
    ensures !Collides(p.x, p.y)
  {
  }

  /** The accept-or-reject step: the proposed position replaces the old one only
      if it is free of walls; a rejected move leaves the position as it was. */
  function MoveOrStay(p: Point, dx: int, dy: int): (q: Point)
    ensures !Collides(p.x + dx, p.y + dy) ==> q == Point(p.x + dx, p.y + dy)
    ensures Collides(p.x + dx, p.y + dy) ==> q == p
  {
    var proposed := Point(p.x + dx, p.y + dy);
    if Collides(proposed.x, proposed.y) then p else proposed
  }

  /** The four boundary checks of the C code: each axis is clamped to its own nearest border. */
  function Clamp(p: Point): (q: Point)
    ensures InBounds(q)
    ensures 0 <= p.x < ScreenWidth ==> q.x == p.x
    ensures p.x < 0 ==> q.x == 0
    ensures p.x >= ScreenWidth ==> q.x == ScreenWidth - 1
    ensures 0 <= p.y < ScreenHeight ==> q.y == p.y
    ensures p.y < 0 ==> q.y == 0
    ensures p.y >= ScreenHeight ==> q.y == ScreenHeight - 1
  {
    var x := if p.x < 0 then 0 else p.x;
    var x := if x >= ScreenWidth then ScreenWidth - 1 else x;
    var y := if p.y < 0 then 0 else p.y;
    var y := if y >= ScreenHeight then ScreenHeight - 1 else y;
    Point(x, y)
  }

  /** Clamping never moves a wall-free point into a wall. */
  lemma ClampKeepsWallFree(p: Point)
    requires !Collides(p.x, p.y)
    ensures !Collides(Clamp(p).x, Clamp(p).y)
  {
    var q := Clamp(p);
    if q.x != p.x || q.y != p.y {
      assert q.x == 0 || q.x == ScreenWidth - 1 || q.y == 0 || q.y == ScreenHeight - 1;
      BorderIsFree(q);
    }
  }

  /** The exit test on the clamped position: on the screen it is the last column,
      rows 50 to 60, and no wall blocks it. */
  predicate AtExit(p: Point)
    ensures AtExit(p) ==> !Collides(p.x, p.y)
    ensures InBounds(p) ==> (AtExit(p) <==> p.x == ScreenWidth - 1 && ExitTop <= p.y <= ExitBottom)
  {
    p.x >= ScreenWidth - 1 && ExitTop <= p.y <= ExitBottom
  }

  /** Where a tick leaves the player before the exit test: moved or not, then clamped. */
  function Landing(p: Point, dx: int, dy: int): (q: Point)
    ensures InBounds(q)
  {
    Clamp(MoveOrStay(p, dx, dy))
  }

  /** The integer part of one pass of the maze loop. */
  function TickSpec(a: Agent, input: Input): (r: Agent)
    ensures InBounds(r.pos)
    ensures r.mode == a.mode || r.mode == ModeMenu
  {
    var p := Landing(a.pos, input.dx, input.dy);
    var won := AtExit(p);
    var mode := if won then ModeMenu else a.mode;
    Agent(if won then Start else p, !won, if input.sharpTilt then ModeMenu else mode)
  }

  /** A position the game may show: on the screen and outside every wall. */
  predicate Safe(a: Agent) {
    InBounds(a.pos) && !Collides(a.pos.x, a.pos.y)
  }

  /** The start position is on the screen and outside every wall. */
  lemma StartIsSafe(gameOn: bool, mode: GameMode)
    ensures Safe(Agent(Start, gameOn, mode))
  {
  }

  /** Every tick keeps the player wall-free, whatever it is fed: an accepted move is
      wall-free by the test, a rejected one keeps the old position, the clamp only
      produces border points, and the win resets to the start. */
  lemma TickKeepsSafe(a: Agent, input: Input)
    requires !Collides(a.pos.x, a.pos.y)
    ensures Safe(TickSpec(a, input))
  {
    var m := MoveOrStay(a.pos, input.dx, input.dy);
    assert !Collides(m.x, m.y);
    ClampKeepsWallFree(m);
  }

  /** A move into a wall changes nothing in the position: when the player stands on
      the screen away from the exit, the tick leaves it where it was, the game on,
      and the mode as it was unless the abort gesture is made. */
  lemma RejectedMoveKeepsPosition(a: Agent, input: Input)
    requires InBounds(a.pos) && !AtExit(a.pos)
    requires Collides(a.pos.x + input.dx, a.pos.y + input.dy)
    ensures TickSpec(a, input).pos == a.pos
    ensures TickSpec(a, input).gameOn
    ensures TickSpec(a, input).mode == if input.sharpTilt then ModeMenu else a.mode
  {
  }

  /** The win: exactly when the landing position is in the exit, the tick ends the
      game, puts the player back at the start and returns to the menu; otherwise the
      player stays at the landing position and the game stays on. */
  lemma WinExactly(a: Agent, input: Input)
    ensures var r := TickSpec(a, input);
            var p := Landing(a.pos, input.dx, input.dy);
            (!r.gameOn <==> AtExit(p)) &&
            (AtExit(p) ==> r.pos == Start && r.mode == ModeMenu) &&
            (!AtExit(p) ==> r.pos == p)
  {
  }

  /** A win leaves the player away from the exit, so the next tick cannot win again
      without moving there first. */
  lemma WinFiresOnce(a: Agent, input: Input)
    requires AtExit(Landing(a.pos, input.dx, input.dy))
    ensures !AtExit(TickSpec(a, input).pos)
  {
  }

  /** The abort gesture only switches the mode to the menu: position and game flag
      are those of the same tick without the gesture. Without the gesture and without
      a win, the mode is left alone. */
  lemma AbortOnlySwitchesMode(a: Agent, dx: int, dy: int)
    ensures TickSpec(a, Input(dx, dy, true)).mode == ModeMenu
    ensures TickSpec(a, Input(dx, dy, true)).pos == TickSpec(a, Input(dx, dy, false)).pos
    ensures TickSpec(a, Input(dx, dy, true)).gameOn == TickSpec(a, Input(dx, dy, false)).gameOn
    ensures TickSpec(a, Input(dx, dy, false)).gameOn ==> TickSpec(a, Input(dx, dy, false)).mode == a.mode
  {
  }

  /** From a position on the screen, a tick without a win moves the player no
      further than the proposed displacement on each axis, and never the other way:
      the new coordinate lies between the old one and the proposed one. */
  lemma StepBounded(a: Agent, input: Input)
    requires InBounds(a.pos)
    requires TickSpec(a, input).gameOn
    ensures var q := TickSpec(a, input).pos;
            (input.dx >= 0 ==> a.pos.x <= q.x <= a.pos.x + input.dx) &&
            (input.dx <= 0 ==> a.pos.x + input.dx <= q.x <= a.pos.x) &&
            (input.dy >= 0 ==> a.pos.y <= q.y <= a.pos.y + input.dy) &&
            (input.dy <= 0 ==> a.pos.y + input.dy <= q.y <= a.pos.y)
  {
  }

  /** The agent after a sequence of ticks. */
  function Run(a: Agent, inputs: seq<Input>): (r: Agent)
    decreases |inputs|
  {
    if inputs == [] then a else Run(TickSpec(a, inputs[0]), inputs[1..])
  }

  /** Whatever the player does, a run that starts wall-free stays on the screen and
      outside every wall after every tick. */
  lemma {:induction false} RunKeepsSafe(a: Agent, inputs: seq<Input>)
    requires Safe(a)
    ensures Safe(Run(a, inputs))
    decreases |inputs|
  {
    if inputs != [] {
      TickKeepsSafe(a, inputs[0]);
      RunKeepsSafe(TickSpec(a, inputs[0]), inputs[1..]);
    }
  }

  /** A move into the tall wall of the maze is rejected: from (30, 20), five pixels
      left would land at (25, 20) in the wall x in [20, 30), y in [10, 50). */
  lemma RejectionExample()
    ensures TickSpec(Agent(Point(30, 20), true, ModeMaze), Input(-5, 0, false))
         == Agent(Point(30, 20), true, ModeMaze)
  {
  }

  /** Reaching the right edge inside the exit rows wins: from (125, 55) a move of 5
      to the right is clamped to x = 127, and the tick resets the player. */
  lemma WinExample()
    ensures TickSpec(Agent(Point(125, 55), true, ModeMaze), Input(5, 0, false))
         == Agent(Start, false, ModeMenu)
  {
  }

  /** Only the proposed position is tested, so the one-pixel-high wall at y = 50 is
      crossed by any vertical move that jumps over it. */
  lemma SegmentCanBeJumped()
    ensures TickSpec(Agent(Point(80, 48), true, ModeMaze), Input(0, 4, false)).pos == Point(80, 52)
  {
  }
}
