/** The maze game as the sketch runs it: globals updated in place by
    `setupMazeGame` on mode entry and by `loopMazeGame` once per loop. */
module MazeGame {
  import opened DLDProject
  import opened Tilt
  import opened MazeLogic

  /** The globals the maze reads and writes. */
  class Game {
    var playerX: int
    var playerY: int
    var playerVX: real
    var playerVY: real
    var isGameOn: bool
    var currentMode: GameMode

    /** The integer part of the state, as the pure model sees it. */
    function Snapshot(): Agent
      reads this
    {
      Agent(Point(playerX, playerY), isGameOn, currentMode)
    }

    /** The globals as the sketch defines them before any mode runs: zero, and the menu. */
    constructor ()
      ensures playerX == 0 && playerY == 0 && playerVX == 0.0 && playerVY == 0.0
      ensures !isGameOn && currentMode == ModeMenu && Ordinal(currentMode) == 0
      ensures MazeLogic.Safe(Snapshot())
    {
      playerX, playerY := 0, 0;
      playerVX, playerVY := 0.0, 0.0;
      isGameOn := false;
      currentMode := ModeMenu;
    }

    /** Mode entry: the player is put at the start at rest, whatever the state was;
        the mode and the game flag are not touched. */
    method SetupMazeGame()
      modifies this
      ensures playerX == Start.x && playerY == Start.y
      ensures playerVX == 0.0 && playerVY == 0.0
      ensures isGameOn == old(isGameOn) && currentMode == old(currentMode)
      ensures MazeLogic.Safe(Snapshot())
    {
      playerX := 5;
      playerY := 35;
      playerVX := 0.0;
      playerVY := 0.0;
    }

    /** The integer part of `loopMazeGame`: move unless blocked, clamp, exit test,
        abort test. The velocity is not touched, not even on a win. */
    method Tick(dx: int, dy: int, sharpTilt: bool)
      modifies this`playerX, this`playerY, this`isGameOn, this`currentMode
      ensures Snapshot() == TickSpec(old(Snapshot()), Input(dx, dy, sharpTilt))
      ensures InBounds(Point(playerX, playerY))
      ensures !Collides(old(playerX), old(playerY)) ==> MazeLogic.Safe(Snapshot())
    {
      if !Collides(playerX, playerY) {
        TickKeepsSafe(Snapshot(), Input(dx, dy, sharpTilt));
      }
      isGameOn := true;
      var newPlayerX := playerX + dx;
      var newPlayerY := playerY + dy;
      if !Collides(newPlayerX, newPlayerY) {
        playerX := newPlayerX;
        playerY := newPlayerY;
      }
      if playerX < 0 { playerX := 0; }
      if playerX >= ScreenWidth { playerX := ScreenWidth - 1; }
      if playerY < 0 { playerY := 0; }
      if playerY >= ScreenHeight { playerY := ScreenHeight - 1; }
      if playerX >= ScreenWidth - 1 && playerY >= ExitTop && playerY <= ExitBottom {
        isGameOn := false;
        playerX := 5;
        playerY := 35;
        currentMode := ModeMenu;
      }
      if sharpTilt {
        currentMode := ModeMenu;
        return;
      }
    }

    /** One pass of `loopMazeGame` on a raw accelerometer sample: the velocity is
        damped, pushed by the tilt and limited, and its truncation drives the tick. */
    method LoopMazeGame(ax: Int16, ay: Int16)
      modifies this
      ensures playerVX == NextVelocity(old(playerVX), AccelX(ay))
      ensures playerVY == NextVelocity(old(playerVY), AccelY(ax))
      ensures -5 <= Truncate(playerVX) <= 5 && -5 <= Truncate(playerVY) <= 5
      ensures Snapshot() == TickSpec(old(Snapshot()),
                Input(Truncate(playerVX), Truncate(playerVY), SharpTilt(AccelX(ay), AccelY(ax))))
      ensures old(MazeLogic.Safe(Snapshot())) ==> MazeLogic.Safe(Snapshot())
    {
      var accelX := AccelX(ay);
      var accelY := AccelY(ax);
      playerVX := playerVX * PlayerDamping + accelX * PlayerSpeed;
      playerVY := playerVY * PlayerDamping + accelY * PlayerSpeed;
      playerVX := Constrain(playerVX, -MaxPlayerVelocity, MaxPlayerVelocity);
      playerVY := Constrain(playerVY, -MaxPlayerVelocity, MaxPlayerVelocity);
      DisplacementBound(old(playerVX), accelX);
      DisplacementBound(old(playerVY), accelY);
      Tick(Truncate(playerVX), Truncate(playerVY), SharpTilt(accelX, accelY));
    }
  }
}
