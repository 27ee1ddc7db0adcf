# Escape from Spider: the game-phase machine, in Dafny

A model of the per-frame logic of a small Siv3D first-person game. The player
walks a maze, burns five spider eggs, and must not be caught by the spider,
which chases them. The model covers three things:

- the four game phases (`Title`, `Gameplay`, `GameOver`, `GameClear`) and how each frame moves between them;
- the five "egg burned" flags and the reset rules that clear them;
- the two guards of the player controller: the pitch clamp of mouse look, and the move-or-stay rule of movement.

Modules:

- `Geometry` (`geometry.dfy`): 3-D vectors over the reals, screen points, and the two fixed start positions.
  The player starts at `{100, 2, -16}`. The spider starts at `{0, -0.62, 10}`.
- `Player` (`player.dfy`): the `PlayerController` class with `HandleMouse` and `UpdatePosition`.
  Next to it are the functions that specify them: `Clamp`, `PitchAfter`, `AngleAfter`, `WindowCentre`, `MovedTo`.
- `Game` (`game.dfy`): the game loop.
  - The class `GameLoop` holds the phase, the flags, the spider position, the remembered previous player position, and the player controller.
  - `Step` runs one frame. `Play` is the loop over the frames.
  - Both are proved against the pure reference definitions `Next` (one frame) and `Run` (many frames), which work on a `Snapshot` of the state.
  - `GameplayFrame` (the Gameplay branch, Main.cpp:405-613), `Next` (the switch of the loop body, Main.cpp:333-623) and `Run` (the loop, Main.cpp:331-625) have no contracts of their own. They are covered by the rows of `GameplayStep`, `Step` and `Play`, which are proved equal to them, and by the lemmas of `GameProperties`.
- `GameProperties` (`game_properties.dfy`): what the game promises, as lemmas about `Next` and `Run`.

Engine queries are inputs:

- A `World` value holds the level geometry, which is fixed at startup. It is a set of abstract predicates, each saying whether the player sphere centred at a point intersects a box:
  - the level's bounding box;
  - each of the 5 egg boxes;
  - each of the 32 wall boxes (25 double walls and 7 single walls);
  - the spider's box, given the spider's position.
- A `Frame` value holds what the engine reports in one frame:
  - whether the current phase's button was clicked;
  - whether the left mouse button went down;
  - the cursor position and the window size;
  - the displacement the movement keys ask for;
  - the displacement of the spider's chase step.

  Both movements of a Gameplay frame use the same displacement. The keys, the frame time and the view angle do not change between the two calls.

The Gameplay branch runs its statements in the source's order:

1. the win check;
2. mouse look;
3. the first move;
4. the spider's chase step;
5. the five egg checks;
6. spider contact;
7. the second move;
8. the 32 wall checks;
9. remembering the position.

The egg, spider and wall checks all use the player sphere from the *first*
move. The model proves what follows from this order:

- Each Gameplay frame applies the movement twice. The first move is at the start of the branch and the second comes after the spider check. With nothing blocking and nothing touched, the eye moves by twice the frame's displacement (`DoubleMove`).
- A frame that both wins and touches the spider ends in `GameOver` (`WinThenSpider`).
- After spider contact, the player is put back at the start, but the second move still runs, and a wall contact then puts the eye back at the previous frame's position (`SpiderContact`). The eye ends exactly at the start in two cases. In the first, a wall was touched and the previous frame ended at the start. In the second, no wall was touched and the second move stays there, because it is refused or asks for no movement (`SpiderContactEndsAtStart`). A frame with no movement and no wall contact is one such frame (`SpiderContactAtRest`).
- `BacktoTitle` does not reset the remembered previous position, the view angles or the cursor (`GameClearFrame`).

The source's five egg statements and 32 wall statements repeat one statement per box. They are modelled as a loop over the box index, in the same order.

## Model

| member | source | states |
|---|---|---|
| Player.Clamp | Main.cpp:79 | The result lies in [lo, hi]. It equals the value when the value is in range, and the nearer bound otherwise. |
| Player.PitchAfter | Main.cpp:77-79 | Whatever the mouse delta, the new pitch lies in [-80°, 80°]. It is the old pitch minus 0.3° per pixel when that is in range. Moving the mouse down never raises it and moving it up never lowers it, except for clamping. |
| Player.MovedTo | Main.cpp:55-64 | The eye moves to the candidate position exactly when the candidate sphere misses the bounding box, and otherwise stays. A clear eye stays clear, and a move only ever lands somewhere clear. |
| Player.PlayerController.constructor | Main.cpp:15-23 | The player starts at {100, 2, -16} with both angles zero and the last cursor position set to the current cursor. |
| Player.PlayerController.HandleMouse | Main.cpp:68-87 | The angle turns by 0.3° per pixel of horizontal delta. The pitch becomes `PitchAfter` of the vertical delta and so stays within ±80°. The last cursor position becomes the window centre, found by halving the window size with integer division. |
| Player.PlayerController.UpdatePosition | Main.cpp:42-65 | The eye becomes `MovedTo` of the old eye. It never moves into the bounding box, and the current eye position is returned in both cases. |
| Game.GameLoop.constructor | Main.cpp:282-326 | Starts in Title with no egg burned, the spider and the player at their starts, and the previous position equal to the player's. |
| Game.GameLoop.Step | Main.cpp:331-405 | One frame runs exactly the branch of the current phase. The new state is `Next` of the old, and the flag count and pitch bound are kept. |
| Game.GameLoop.GameplayStep | Main.cpp:405-613 | The Gameplay branch, statement by statement, produces `GameplayFrame` of the old state. |
| Game.GameLoop.BurnEggs | Main.cpp:554-558 | Flag i is set when the frame's player sphere touches egg box i and the left button went down. Every other flag keeps its value. |
| Game.GameLoop.RevertOnWalls | Main.cpp:578-610 | If the sphere touches any of the 32 wall boxes, the eye becomes the previous frame's position. Otherwise it is unchanged. |
| Game.GameLoop.Play | Main.cpp:331-625 | Running the loop over a sequence of frames yields `Run` of the start state. |
| GameProperties.WinCheck | Main.cpp:408-412 | In Gameplay, all five flags set and no spider contact gives GameClear. Conversely, GameClear arises only that way, or by staying on the clear screen. |
| GameProperties.SpiderContact | Main.cpp:560-613 | Spider contact gives GameOver, clears all flags and puts the spider back at its start. The eye then ends at the second move from the player's start, or at the previous frame's position if a wall was touched. |
| GameProperties.SpiderContactAtRest | Main.cpp:560-613 | With no movement and no wall contact, spider contact leaves the player exactly at {100, 2, -16}. |
| GameProperties.SpiderContactEndsAtStart | Main.cpp:560-613 | After spider contact, the eye is exactly at {100, 2, -16} if and only if one of two things holds. Either a wall was touched and the previous position was the start, or no wall was touched and the second move from the start leaves the eye there. |
| GameProperties.WinThenSpider | Main.cpp:408-571 | A frame that both wins and touches the spider ends in GameOver with every flag false. |
| GameProperties.EggFlag | Main.cpp:554-558 | Without spider contact, flag i after a Gameplay frame holds if and only if it held before, or egg box i was touched while the left button went down. |
| GameProperties.FlagsClearedOnlyByReset | Main.cpp:389-571 | A frame that is neither spider contact nor BacktoTitle clears no flag. Either reset clears all five. |
| GameProperties.FlagsMonotoneBetweenResets | Main.cpp:554-568 | Over any run of frames without a reset, no flag is cleared. |
| GameProperties.TitleFrame | Main.cpp:361-364 | The title screen goes to Gameplay exactly when StartGame is clicked, and nothing else changes. |
| GameProperties.GameOverFrame | Main.cpp:375-378 | The game-over screen goes to Gameplay exactly when RestartGame is clicked, with no further reset. |
| GameProperties.GameClearFrame | Main.cpp:389-400 | On BacktoTitle the clear screen goes to Title. Flags are cleared, and the spider and the player are back at their starts. The previous position, angles and cursor are kept. Without the click nothing changes. |
| GameProperties.DoubleMove | Main.cpp:423-613 | Without spider contact, a refused move or a wall hit, a Gameplay frame moves the eye twice by the frame's displacement, and the previous position becomes that eye. |
| GameProperties.WallResolution | Main.cpp:578-613 | After a Gameplay frame, the previous position equals the eye. A wall contact of the first sphere puts the eye at the previous frame's position. Otherwise the eye is the result of the second move. |
| GameProperties.PitchStaysClamped | Main.cpp:77-79 | Over any run of frames, the pitch stays within [-80°, 80°]. |
| GameProperties.ClearPreserved | Main.cpp:331-613 | If the start position is clear of the level box, a frame keeps both the eye and the previous position clear of it. |
| GameProperties.ClearForever | Main.cpp:331-613 | Under the same condition, every run of frames keeps them clear. |
| GameProperties.InitialClear | Main.cpp:282-286 | The initial state is on the title screen with no egg burned, and it is clear when the start position is. |

## Left out

- Rendering, textures, models, shaders, constant buffers, fog and lighting: these are engine and GPU calls with no effect on the modelled state.
- Audio (`bgm.play()`, `fire.play()`) and the `Print` messages: these are output only.
- Siv3D geometry (`Sphere::intersects`, `Box::stretched`, `movedBy`, `scaled`, `GetSpiderBoundingBox`): intersection results are the abstract predicates of `World`.
- The movement direction (`GetHorizontalXZDirection`, the WASD keys, the frame time): the model takes the resulting displacement as an input.
- The spider's chase step (direction, normalisation, speed): the model takes the resulting displacement as an input.
- `GetDirection`, `GetFocusPosition` and the lighter offset: these only feed the camera and drawing.
- The title-screen alpha fade: this is cosmetic.
- Cursor hiding and warping: the warp's effect on the last cursor position is modelled, the OS call is not.
- `m_nextPosition`: it is never read.
- Floating point: positions and angles are reals, so rounding is not modelled.
- Angle units: angles are in degrees rather than radians. The two differ by the constant factor π/180, which the 0.3° and ±80° constants carry too.
