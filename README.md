# Tilt maze: a verified model of the maze game's position logic

The sketch runs a small maze on a 128x64 monochrome display. The player is a ball
moved by tilting an accelerometer. Each pass of `loopMazeGame` does the following:

- it turns the tilt into a damped velocity, limited to 5.4 pixels per tick;
- it proposes the position moved by the truncated velocity;
- it keeps that position only if no wall contains it;
- it clamps the position to the screen;
- it tests the exit and the abort gesture.

A win puts the player back at (5, 35) and returns to the menu. The abort gesture
(both tilt components beyond 0.8) returns to the menu without resetting the player;
the move and the clamp of that same pass still happen.
`setupMazeGame` puts the player at (5, 35) at rest.

The project has four modules:

- `DLDProject` (`dld_project.dfy`) holds the `GameMode` enumeration shared by the sketch, with the integer value C gives each mode.
- `Tilt` (`tilt.dfy`) models the sensor scaling and the velocity update on exact reals.
  It also models the C truncation `(int)v` and the sharp-tilt test. It proves that
  every proposed displacement is in [-5, 5], and it restates the abort gesture on the
  raw samples.
- `MazeLogic` (`maze_logic.dfy`) holds the pure model of the integer state.
  - `Collides` is the wall test. It is proved equal to a list of wall rectangles (`CollidesIffInSomeWall`).
  - `MoveOrStay` accepts or rejects the proposed position.
  - `Clamp` is the four boundary checks.
  - `AtExit` is the exit test.
  - `TickSpec` is one whole tick.
  - `Run` is a sequence of ticks.
  The lemmas cover bounds, wall-freedom kept by every tick and every run, the
  rejected move, the exact win and abort transitions, and the step length.
- `MazeGame` (`maze_game.dfy`) holds the class `Game`. Its fields are the globals
  `playerX`, `playerY`, `playerVX`, `playerVY`, `isGameOn` and `currentMode`.
  - `SetupMazeGame` and `LoopMazeGame` update these fields in place, as the C code does.
  - `Tick` is the integer part of the loop. It is proved equal to `TickSpec`.

The wall layout is that of `mazeCheckCollision`: three half-open rectangles and a
fourth wall that is a one-pixel-high segment at y = 50 for 70 <= x < 118, not a
rectangle. The player is reset only on a win; the abort gesture leaves the position
alone.

## Model

| member | source | states |
|---|---|---|
| `DLDProject.Ordinal` | DLDProject/DLDProject.h:5-10 | the C value of each `GameMode` enumerator is below 4, and only the menu has the value 0 |
| `DLDProject.OrdinalDeclarationOrder` | DLDProject/DLDProject.h:5-10 | the values grow in declaration order (menu, sand, maze, credit), so they are exactly 0, 1, 2, 3 and distinct |
| `Tilt.Constrain` | DLDProject/MazeGame.cpp:50-59 | the result lies in [low, high]; it is the input when that is in range, and otherwise the bound it crossed |
| `Tilt.Normalize` | DLDProject/MazeGame.cpp:50-51 | a raw sample scaled by 1/16384 and limited to [-1, 1]: within +-16384 the value is the sample over 16384, beyond it exactly 1 or -1 |
| `Tilt.AccelX` | DLDProject/MazeGame.cpp:50 | the horizontal tilt is the sensor's y sample over 16384, saturating at 1 and -1 |
| `Tilt.AccelY` | DLDProject/MazeGame.cpp:51 | the vertical tilt is minus the sensor's x sample over 16384, saturating at -1 for large positive and 1 for large negative samples |
| `Tilt.NextVelocity` | DLDProject/MazeGame.cpp:54-59 | the new velocity lies in [-5.4, 5.4]; it equals damped velocity plus tilt times speed when that is within the limit, 5.4 when it is above, and -5.4 when it is below |
| `Tilt.Truncate` | DLDProject/MazeGame.cpp:62-63 | the C cast to int rounds toward zero: same sign, magnitude not larger, and less than one smaller |
| `Tilt.DisplacementBound` | DLDProject/MazeGame.cpp:58-63 | for any previous velocity and tilt, the truncated displacement of a tick lies in [-5, 5] |
| `Tilt.DisplacementBoundTight` | DLDProject/MazeGame.cpp:58-63 | a velocity at its limit gives a displacement of exactly 5 or -5, so the bound is reached |
| `Tilt.NormalizeBeyondThreshold` | DLDProject/MazeGame.cpp:50-51 | clamping a sample to [-1, 1] does not change whether its magnitude exceeds 0.8 g |
| `Tilt.Abs` | DLDProject/MazeGame.cpp:99 | Arduino's `abs`: the result is not negative and is the value or its negation |
| `Tilt.SharpTilt` | DLDProject/MazeGame.cpp:99 | the abort gesture holds exactly when each tilt component is above 0.8 or below -0.8 |
| `Tilt.SharpTiltOnRawSamples` | DLDProject/MazeGame.cpp:99 | the abort gesture holds exactly when both raw samples have magnitude at least 13108 |
| `MazeLogic.Collides` | DLDProject/MazeGame.cpp:105-114 | every colliding point has 20 <= x < 118 and 10 <= y <= 50, so walls lie inside the screen away from its border |
| `MazeLogic.CollidesIffInSomeWall` | DLDProject/MazeGame.cpp:105-114 | a point collides exactly when one of the four wall rectangles [20,30)x[10,50), [40,90)x[20,30), [90,100)x[30,50), [70,118)x[50,51) contains it |
| `MazeLogic.BorderIsFree` | DLDProject/MazeGame.cpp:105-114 | no point on the screen's border is inside a wall |
| `MazeLogic.MoveOrStay` | DLDProject/MazeGame.cpp:62-69 | a wall-free proposal replaces the position; a colliding proposal leaves the position unchanged |
| `MazeLogic.Clamp` | DLDProject/MazeGame.cpp:72-75 | each coordinate on its own: kept when on the screen, 0 when negative, the last column or row when too large |
| `MazeLogic.ClampKeepsWallFree` | DLDProject/MazeGame.cpp:72-75 | clamping a wall-free point gives a wall-free point |
| `MazeLogic.AtExit` | DLDProject/MazeGame.cpp:78 | on the screen, a point is an exit exactly when it is in the last column at rows 50 to 60; every exit point is free of walls |
| `MazeLogic.Landing` | DLDProject/MazeGame.cpp:62-75 | after the move step and the boundary checks the position is on the screen, whatever was proposed |
| `MazeLogic.TickSpec` | DLDProject/MazeGame.cpp:62-102 | after a tick the position is on the screen, and the mode is either unchanged or the menu |
| `MazeLogic.StartIsSafe` | DLDProject/MazeGame.cpp:33-34 | the start position (5, 35) is on the screen and outside every wall |
| `MazeLogic.TickKeepsSafe` | DLDProject/MazeGame.cpp:66-90 | a tick from a wall-free position, with any input, ends on the screen and wall-free |
| `MazeLogic.RejectedMoveKeepsPosition` | DLDProject/MazeGame.cpp:65-69 | a move into a wall from an on-screen position outside the exit leaves the position unchanged and the game on, and it leaves the mode unchanged unless the abort gesture is made |
| `MazeLogic.WinExactly` | DLDProject/MazeGame.cpp:77-90 | the game flag goes off exactly when the landing position is in the exit; then the player is at (5, 35) and the mode is the menu; otherwise the player stays at the landing position |
| `MazeLogic.WinFiresOnce` | DLDProject/MazeGame.cpp:78-88 | after a win the player is not in the exit, so the win does not fire again without a new move there |
| `MazeLogic.AbortOnlySwitchesMode` | DLDProject/MazeGame.cpp:98-102 | the abort gesture sets the mode to the menu and leaves position and game flag as the same tick without it; without gesture and win the mode is unchanged |
| `MazeLogic.StepBounded` | DLDProject/MazeGame.cpp:62-75 | from an on-screen position, a tick without a win leaves each coordinate between its old value and the proposed one |
| `MazeLogic.RunKeepsSafe` | DLDProject/MazeGame.cpp:62-102 | any sequence of ticks from a wall-free on-screen state ends on the screen and wall-free |
| `MazeLogic.RejectionExample` | DLDProject/MazeGame.cpp:65-69 | from (30, 20), a move to (25, 20) inside the first wall is rejected and nothing changes |
| `MazeLogic.WinExample` | DLDProject/MazeGame.cpp:77-90 | from (125, 55), a move 5 to the right is clamped to x = 127 and wins: the player is reset and the mode is the menu |
| `MazeLogic.SegmentCanBeJumped` | DLDProject/MazeGame.cpp:110 | only the proposed point is tested, so a move from (80, 48) to (80, 52) crosses the one-pixel wall at y = 50 |
| `MazeGame.Game.constructor` | DLDProject/MazeGame.h:20-24 | the globals start at zero; the mode is the menu, whose enumerator value is 0; the state is wall-free and on the screen |
| `MazeGame.Game.SetupMazeGame` | DLDProject/MazeGame.cpp:32-36 | whatever the prior state, the player is at (5, 35) with zero velocity; the mode and the game flag are unchanged |
| `MazeGame.Game.Tick` | DLDProject/MazeGame.cpp:62-102 | the in-place updates of the integer globals give exactly `TickSpec` of the old state; velocity is untouched; a wall-free state stays wall-free |
| `MazeGame.Game.LoopMazeGame` | DLDProject/MazeGame.cpp:43-102 | the velocities become the damped, tilted and limited values; the integer state is `TickSpec` of the old state, fed the truncated velocities and the sharp-tilt test; each displacement is in [-5, 5]; a safe state stays safe |

## Left out

- Drawing is display I/O with no effect on the state, so it is not modelled. This covers the splash screen and the `delay` calls of `setupMazeGame`, the "You Win!" screen, `drawMaze`, `mazeDrawPlayer` and the redraw in the loop.
- The accelerometer read is hardware I/O. `LoopMazeGame` takes the two samples it uses as parameters, and the z sample is never used.
- Floating point: the velocity update, the sensor scaling and the 0.8 threshold are modelled on exact reals. The rounding of 32-bit floats and the float values of 0.95, 5.4 and 0.8 are not captured.
- `int` overflow (16 bits on AVR boards, 32 bits on others) is not modelled, because positions are unbounded integers. It cannot arise from the loop, where positions stay within [0, 127] x [0, 63] and displacements within [-5, 5].
- The mode dispatch that calls `setupMazeGame` and `loopMazeGame`, and the definitions of the globals, are in the sketch's main file, which is not part of this model. The constructor assumes C's zero-initialisation and a menu start.
- The falling-sand mode (DLDProject/MovingSand.cpp) is not modelled. Its particles are floats throughout, its repulsion uses `sqrt`, and its initialisation uses `random`.
