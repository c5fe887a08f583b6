# Platformer simulation step, modelled in Dafny

This project models the simulation core of a single-page side-scrolling platformer
(`src/js/canvas.js`). A player body falls under gravity. It lands on a row of six ground
tiles. It walks left or right between two screen bounds, and beyond those bounds the
world scrolls beneath it instead. Platforms move at full scroll speed and the background
at a slower parallax speed. The level counts as completed once the cumulative scroll
offset passes 2000. Start, pause and reset buttons and three keys ('a', 'd', 'w') drive
the session.

The model has four modules:

- `Kinematics` (`kinematics.dfy`): the player body, `Player.update` as the function
  `Integrate`, and free-fall and floor lemmas.
- `World` (`world.dfy`): the initial tile layout, the horizontal `Shift` applied while
  scrolling, the four-conjunct landing test `Lands`, and the in-order landing pass
  `Resolve` with its order-independence and idempotence lemmas.
- `Session` (`session.dfy`): the whole session as a value `State`, with one function per
  operation (`HorizontalStep`, `ResolveLandings`, `Tick`, `Start`, `Pause`, `Reset`,
  `KeyDown`, `KeyUp`). Two invariants sit beside them. `Coherent` is the scroll invariant:
  every platform's x plus the scroll offset is its initial x, and 5 times the background
  x is -2 times the offset. `Lifecycle` says the frame chain is never scheduled while
  paused. The lemmas state what the program promises about these functions.
- `Game` (`game.dfy`): the class `GameSession`, holding the mutable state the program
  keeps in module-level variables. Platforms and background layers are arrays shifted
  in place, and the landing pass is a loop. Each method is proved to leave
  `Snapshot()` equal to the matching `Session` function of the old snapshot.
  `Start`, `Pause`, `Reset`, `KeyDown`, `KeyUp` and `DismissAnnouncement` require and
  keep `Valid()` (both invariants). `Tick` keeps `Valid()` whenever it held before the
  frame. `Initialize`, `Tick` and `Animate` establish or keep the scroll invariant with
  separate arrays (`WorldValid()`).

Coordinates are `real`; the scroll offset is an `int`, since it only ever moves in steps
of 5. The platform tile's width and height come from an image in the program, so they
are parameters of the constructor (which requires both to be positive). The flag
`running` stands for "a frame callback is scheduled". `Tick` is the body of one frame.

Some behaviours of `canvas.js` are easy to misread; the model follows the code as written:

- `startGame` and `resetGame` call `animate()`, which schedules the next frame and then
  runs one whole frame at once, before the next frame runs. So a first start, a resume and a reset each
  include one `Tick`. A resume does not reinitialise anything. It does advance the
  paused world by that frame, so the player and the scroll offset can change
  (`Session.StartResumes`).
- `pauseGame` sets `isPaused` even when the game was never started. It is not a no-op in
  that state.
- After `resetGame` the frames keep running, but `gameStarted` is false, so the next
  start reinitialises again.
- Zeroing the vertical speed at the canvas floor does not leave the player at rest. While
  the bottom edge is at or above the floor, the next update accelerates again
  (`Kinematics.ClampReleases`). The speed stays zero only once the bottom edge is below
  the floor (`Kinematics.RestsBelowFloor`).
- Holding right gives 2000 units of scroll in 400 frames only once the player is pinned
  at the right bound (`Session.HoldRightCompletes`). From a first start the player
  first walks from x = 100 to x = 400. The level then completes on the 460th frame
  after the start (`Session.StartHoldingRight`).

## Model

| member | source | states |
|---|---|---|
| `Game.GameSession.constructor` | src/js/canvas.js:13-17 | page load: the module-level initial flags, then `initializeGame`; the session is valid, not started and not scheduled |
| `Game.GameSession.Initialize` | src/js/canvas.js:86-105 | new player at spawn, scroll offset 0, level not completed, banner on, six fresh platforms and one fresh background; establishes the scroll invariant |
| `Game.GameSession.PlayerUpdate` | src/js/canvas.js:37-46 | position moves by the pre-step velocity, then the vertical speed gains 1.5 or is zeroed at the canvas floor; nothing else changes |
| `Game.ShiftInPlace` | src/js/canvas.js:144-149 | the in-place `forEach` over an array moves every element's x by the given amount and keeps every y |
| `Game.GameSession.HorizontalStep` | src/js/canvas.js:135-151 | the new state is exactly the horizontal step of the old one: the player's speed is set, or platforms, background and offset move in place |
| `Game.GameSession.ResolveLandings` | src/js/canvas.js:153-162 | the loop over the platforms in their order leaves the player as the in-order landing pass does |
| `Game.GameSession.Tick` | src/js/canvas.js:112-166 | one frame is update, horizontal step, landing pass and completion latch in that order; keeps the scroll invariant and the same arrays, and keeps both invariants when they held before |
| `Game.GameSession.Animate` | src/js/canvas.js:112-113 | calling `animate` directly schedules the frame chain and runs exactly one frame at once, on the same arrays, keeping the scroll invariant |
| `Game.GameSession.Start` | src/js/canvas.js:175-185 | first start reinitialises and runs a frame; start while paused resumes with a frame; otherwise nothing changes; keeps both invariants |
| `Game.GameSession.Pause` | src/js/canvas.js:187-192 | sets the pause flag and cancels the frame chain unless already paused |
| `Game.GameSession.Reset` | src/js/canvas.js:194-200 | cancels, reinitialises, marks not started and not paused, and runs a frame |
| `Game.GameSession.KeyDown` | src/js/canvas.js:210-226 | the key-press handler's state change, gated on the pause flag |
| `Game.GameSession.KeyUp` | src/js/canvas.js:228-237 | the key-release handler's state change, never gated |
| `Game.GameSession.DismissAnnouncement` | src/js/canvas.js:132 | the delayed callback clears only the banner flag |
| `Kinematics.Spawn` | src/js/canvas.js:24-26 | definition: the player's constructor, at (100, 100) with velocity (0, 1) |
| `Kinematics.Integrate` | src/js/canvas.js:37-46 | definition: move by the old velocity, then add gravity 1.5 to vy, or set vy to 0 when the moved bottom edge plus vy would pass 576 |
| `Kinematics.FreeFall` | src/js/canvas.js:39-43 | for a body not moving up, while the floor does not stop the fall, n updates move the body by the sum of the pre-step speeds and raise the speed by exactly 1.5 n; x moves by n times the unchanged x-speed |
| `Kinematics.DropClosedForm` | src/js/canvas.js:39-43 | the free-fall distance over n steps from speed v is n v + 1.5 n (n - 1) / 2 |
| `Kinematics.GravityScenario` | src/js/canvas.js:25-26 | from the spawn point (100, 100) with speed 1, ten gravity-only updates reach height 177.5 and speed 16 |
| `Kinematics.RestsBelowFloor` | src/js/canvas.js:42-45 | with zero vertical speed and the bottom edge below the floor, an update keeps the height and the vertical speed zero (x still moves by the x-speed) |
| `Kinematics.ClampReleases` | src/js/canvas.js:42-45 | with zero speed and the bottom edge at or above the floor, an update does not move the body vertically and sets the speed to 1.5 again |
| `World.Shift` | src/js/canvas.js:144-149 | definition: every element's x moved by the same amount, y and order unchanged |
| `World.Lands` | src/js/canvas.js:155-158 | definition: the four conjuncts of the landing test of one platform |
| `World.Resolve` | src/js/canvas.js:153-162 | definition: the landing pass over the platforms in order, each test seeing the speed the earlier ones left |
| `World.InitialPlatforms` | src/js/canvas.js:93-100 | the level has exactly six platforms |
| `World.LayoutAbutment` | src/js/canvas.js:94-99 | tile 0 is at x = -1; tile k (k >= 1) is at k (width - 3); consecutive tiles from the second on overlap by 3; all tiles sit on the floor line 576 - height |
| `World.ShiftInverse` | src/js/canvas.js:144-149 | shifts compose additively and a shift back by the same amount restores the layout |
| `World.ResolveMeaning` | src/js/canvas.js:153-162 | the in-order pass zeroes the vertical speed if and only if some platform passes the four-conjunct test on the body as it was before the pass; otherwise the body is unchanged |
| `World.ResolveFrame` | src/js/canvas.js:153-162 | the landing pass never changes the position or the horizontal speed |
| `World.ResolveOrderIndependent` | src/js/canvas.js:153-162 | any permutation of the platforms gives the same outcome |
| `World.ResolveIdempotent` | src/js/canvas.js:153-162 | running the landing pass twice gives the same result as running it once |
| `World.LandingNeedsDescent` | src/js/canvas.js:155-156 | a landing can only happen with a non-negative vertical speed |
| `Session.Initialize` | src/js/canvas.js:86-105 | definition: spawn player, offset 0, banner on, level not completed, the six initial platforms and the one background |
| `Session.Boot` | src/js/canvas.js:203 | definition: the module-level initial flags of lines 13-17 followed by `initializeGame` |
| `Session.PlayerUpdate` | src/js/canvas.js:126 | definition: the frame's `player.update()`, applying `Integrate` to the player |
| `Session.HorizontalStep` | src/js/canvas.js:135-151 | definition: the three-way key block with bounds 400 and 100, speed 5, scroll 5, platform shift 5 and background shift 2 |
| `Session.ResolveLandings` | src/js/canvas.js:153-162 | definition: the frame's landing pass over the current platforms with the tile width |
| `Session.CompletionCheck` | src/js/canvas.js:164-166 | definition: set the completion latch once the offset exceeds 2000 |
| `Session.Tick` | src/js/canvas.js:112-166 | definition: update, key block, landing pass and latch, in that order |
| `Session.Start` | src/js/canvas.js:175-185 | definition: the three branches of `startGame`, each `animate()` contributing one frame |
| `Session.Pause` | src/js/canvas.js:187-192 | definition: set the pause flag and cancel the chain unless already paused |
| `Session.Reset` | src/js/canvas.js:194-200 | definition: cancel, reinitialise, clear both flags, then one frame |
| `Session.KeyDown` | src/js/canvas.js:210-226 | definition: ignored while paused; 'a' and 'd' set their flag; 'w' subtracts 20 from vy only when vy is 0 |
| `Session.KeyUp` | src/js/canvas.js:228-237 | definition: 'a' and 'd' clear their flag whatever the pause state |
| `Session.DismissAnnouncement` | src/js/canvas.js:132 | definition: the timeout callback, clearing the banner flag |
| `Session.HorizontalModes` | src/js/canvas.js:135-151 | exactly one of: the player moves (speed 5 iff right held inside x < 400; speed -5 iff left held inside x > 100 and right does not take priority) with the world still; the world scrolls (right iff only right held at x >= 400, left iff only left held at x <= 100) with speed 0; nothing moves iff no key is held; position, vertical speed, keys and flags are untouched |
| `Session.AlignedShift` | src/js/canvas.js:142-150 | one scroll step of 5 in either direction, with platforms moving 5 and the background 2 the other way, keeps the scroll invariant |
| `Session.HorizontalCoherent` | src/js/canvas.js:135-151 | the horizontal step keeps the scroll invariant |
| `Session.TickMotion` | src/js/canvas.js:126-162 | in a frame the player moves by its pre-frame velocity; the horizontal speed chosen this frame only takes effect next frame; the vertical speed is 0 if some platform catches the moved player, otherwise the integrated speed (which the floor clamp can also make 0) |
| `Session.TickCoherent` | src/js/canvas.js:112-166 | a frame keeps the scroll invariant, the keys, the tile size and the lifecycle flags |
| `Session.TickLatch` | src/js/canvas.js:164-166 | after a frame the level is completed iff it already was or the offset now exceeds 2000 |
| `Session.TicksLatch` | src/js/canvas.js:164-166 | no number of frames un-completes the level |
| `Session.HoldRightScrolls` | src/js/canvas.js:135-151 | pinned at the right bound with only right held, n frames keep the player's x at the bound and add 5 n to the offset; completion happens iff the offset after some frame exceeds 2000 |
| `Session.HoldRightCompletes` | src/js/canvas.js:142-166 | pinned from offset 0, 400 frames give offset 2000 without completion, and the 401st frame completes the level |
| `Session.ApproachRight` | src/js/canvas.js:135-151 | walking right at speed 5 from m steps before x = 400, the m-th frame pins the player at x = 400 and already scrolls once |
| `Session.ApproachThenScroll` | src/js/canvas.js:135-166 | after m approach frames and n more, the offset has grown by 5 (n + 1) and completion reflects whether it exceeds 2000 |
| `Session.StartHoldingRight` | src/js/canvas.js:175-185 | holding only right from a first start, the offset is 2000 with the level not completed 459 frames after the start, and 2005 with the level completed after 460 |
| `Session.LeftBoundScrolls` | src/js/canvas.js:137-150 | at x = 100 with only left held, a frame keeps the player's x at 100 with x-speed 0, lowers the offset by 5 and moves every platform right by 5 |
| `Session.BootValid` | src/js/canvas.js:203 | the page-load state is valid, not started, not paused, not scheduled, at offset 0 with the player at spawn |
| `Session.InitializeCoherent` | src/js/canvas.js:86-105 | reinitialisation establishes the scroll invariant |
| `Session.StartFresh` | src/js/canvas.js:176-180 | two never-started sessions with the same tile size and keys start into the same state; that state is started, not paused, scheduled, level not completed, banner on, offset within one step of 0, player one frame past spawn |
| `Session.StartResumes` | src/js/canvas.js:181-184 | a start while paused is the paused state's next frame with the pause cleared and the chain scheduled; banner and completion are not reset |
| `Session.StartWhileRunning` | src/js/canvas.js:175-185 | a start while started and not paused changes nothing |
| `Session.PauseIdempotent` | src/js/canvas.js:187-192 | pausing sets the pause flag whether or not the game was started, cancels the chain, changes nothing else, and pausing twice equals pausing once |
| `Session.ResetRestarts` | src/js/canvas.js:194-200 | a reset is a first start that leaves the game marked not started; the result is not started, not paused, scheduled and not completed |
| `Session.ResetForgets` | src/js/canvas.js:194-200 | the state after a reset depends only on the tile size and the held keys |
| `Session.KeyDownGated` | src/js/canvas.js:210-226 | while paused a key press changes nothing; otherwise 'a' and 'd' only set their flag, and 'w' changes the vertical speed (to -20) iff it was exactly 0; positions never change |
| `Session.KeyUpAlways` | src/js/canvas.js:228-237 | releasing 'a' or 'd' clears that flag whatever the pause state and changes nothing else |
| `Session.NoStuckKeyOnResume` | src/js/canvas.js:181-184 | a direction released while paused is still released after resuming |
| `Session.TickValid` | src/js/canvas.js:112-166 | a scheduled frame keeps both invariants and the completion latch |
| `Session.StartValid` | src/js/canvas.js:175-185 | start keeps the scroll and lifecycle invariants; starting an already started game never clears the completion latch |
| `Session.PauseValid` | src/js/canvas.js:187-192 | pause keeps both invariants and leaves the completion latch as it was |
| `Session.ResetValid` | src/js/canvas.js:194-200 | reset keeps both invariants |
| `Session.InputValid` | src/js/canvas.js:210-237 | the key handlers keep both invariants and the completion latch |
| `Session.DismissValid` | src/js/canvas.js:132 | the banner callback keeps both invariants, the completion latch and the scroll offset |

## Left out

- Drawing (`draw` methods, `drawImage`, `fillRect`, `fillText`, the banners): rendering through the browser canvas has no effect on simulation state.
- Image loading (`createImage`, `new Image()`): the tile size read from the platform image is a constructor parameter instead. The background image's size is not used by the simulation.
- Frame scheduling (`requestAnimationFrame`, `cancelAnimationFrame`): a frame is a call to `Tick`, allowed while `running`. `running` records only that some chain is scheduled. A start after a reset schedules a second chain beside the one the reset started, and that overlap is not modelled. The program's pause cancels only the latest chain, so after a reset and a start a pause leaves one chain running while `isPaused` is true; the model's `Pause` stops every frame, and `Lifecycle` (no frames while paused) holds only of the model.
- The two-second `setTimeout` that hides the level banner: the wall clock is left out. Its callback is the method `DismissAnnouncement`.
- DOM listener wiring: the key handlers are methods taking the key character. Keys other than 'a', 'd' and 'w' are ignored, as in the program.
- IEEE-754 rounding: coordinates are exact reals, so the model describes the intended arithmetic and not the rounding of JavaScript doubles.
- The canvas width (1024) is used only for drawing and is not modelled.
- The page-load layout: the program calls `initializeGame` right after creating the platform image, while its width and height are normally still 0, so its first layout is built from a zero tile. `Boot` builds it from the constructor's positive tile size instead. This cannot change any frame, since the first `startGame` and every `resetGame` reinitialise before their frame runs.
