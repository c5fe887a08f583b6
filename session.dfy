/** The whole game session as a value: the scroll controller, the frame step, the
    lifecycle operations and the key handlers, each a function from state to state.
    These functions are the specification the imperative `Game.GameSession` is proved
    against; the lemmas below state what the program promises about them. */
module Session {
  import opened Kinematics
  import opened World

  const PlayerSpeed: real := 5.0
  const ScrollSpeed: int := 5
  const PlatformShift: real := 5.0
  const ParallaxShift: real := 2.0
  const RightBound: real := 400.0
  const LeftBound: real := 100.0
  const CompletionDistance: int := 2000
  const JumpImpulse: real := 20.0

  /** Held direction keys ('a' is left, 'd' is right). */
  datatype Keys = Keys(left: bool, right: bool)

  /** Everything the simulation reads or writes. `running` says whether a frame callback
      is scheduled. */
  datatype State = State(
    tile: Tile,
    player: Body,
    platforms: seq<Vec2>,
    genericObjects: seq<Vec2>,
    scrollOffset: int,
    keys: Keys,
    gameStarted: bool,
    isPaused: bool,
    levelCompleted: bool,
    levelAnnouncement: bool,
    running: bool)

  // ---------------------------------------------------------------- invariants

  /** The scroll invariant: every platform sits at its initial position moved left by the
      scroll offset, and the background has moved two fifths as far (parallax). */
  predicate Coherent(s: State)
  {
    Aligned(s.tile, s.platforms, s.genericObjects, s.scrollOffset)
  }

  predicate Aligned(tile: Tile, platforms: seq<Vec2>, genericObjects: seq<Vec2>, scrollOffset: int)
  {
    var initial := InitialPlatforms(tile);
    |platforms| == PlatformCount &&
    (forall i :: 0 <= i < |platforms| ==>
       platforms[i].x + (scrollOffset as real) == initial[i].x &&
       platforms[i].y == initial[i].y) &&
    |genericObjects| == |InitialBackgrounds| &&
    (forall j :: 0 <= j < |genericObjects| ==>
       5.0 * genericObjects[j].x == -2.0 * (scrollOffset as real) &&
       genericObjects[j].y == InitialBackgrounds[j].y)
  }

  /** The frame chain is never scheduled while paused, and a started game is either
      running or paused. */
  predicate Lifecycle(s: State)
  {
    !(s.isPaused && s.running) &&
    (s.gameStarted ==> s.running || s.isPaused)
  }

  predicate Valid(s: State)
  {
    Coherent(s) && Lifecycle(s)
  }

  // ---------------------------------------------------------------- operations

  /** `initializeGame`: a new player, zero scroll, fresh geometry, banner on, level not
      completed. Keys and lifecycle flags are left as they are. */
  function Initialize(s: State): (r: State)
  {
    s.(player := Spawn(), scrollOffset := 0, levelCompleted := false, levelAnnouncement := true,
       platforms := InitialPlatforms(s.tile), genericObjects := InitialBackgrounds)
  }

  /** The state at page load: the module-level initial values, then `initializeGame`. */
  function Boot(tile: Tile): (r: State)
  {
    Initialize(State(tile, Spawn(), [], [], 0, Keys(false, false),
                     false, false, false, true, false))
  }

  /** `player.update()` without the drawing. */
  function PlayerUpdate(s: State): (r: State)
  {
    s.(player := Integrate(s.player))
  }

  function WithVx(b: Body, vx: real): (r: Body)
  {
    b.(velocity := b.velocity.(x := vx))
  }

  /** The horizontal key block of `animate`: move the player while inside the screen
      bounds, otherwise hold the player and scroll the world. */
  function HorizontalStep(s: State): (r: State)
  {
    var x := s.player.position.x;
    if s.keys.right && x < RightBound then
      s.(player := WithVx(s.player, PlayerSpeed))
    else if s.keys.left && x > LeftBound then
      s.(player := WithVx(s.player, -PlayerSpeed))
    else
      var held := s.(player := WithVx(s.player, 0.0));
      if s.keys.right then
        held.(scrollOffset := s.scrollOffset + ScrollSpeed,
              platforms := Shift(s.platforms, -PlatformShift),
              genericObjects := Shift(s.genericObjects, -ParallaxShift))
      else if s.keys.left then
        held.(scrollOffset := s.scrollOffset - ScrollSpeed,
              platforms := Shift(s.platforms, PlatformShift),
              genericObjects := Shift(s.genericObjects, ParallaxShift))
      else
        held
  }

  /** The landing pass of `animate` over the current platforms. */
  function ResolveLandings(s: State): (r: State)
  {
    s.(player := Resolve(s.player, s.platforms, s.tile.width))
  }

  /** The completion latch of `animate`. */
  function CompletionCheck(s: State): (r: State)
  {
    if s.scrollOffset > CompletionDistance && !s.levelCompleted then s.(levelCompleted := true)
    else s
  }

  /** One frame of `animate` without drawing or scheduling. */
  function Tick(s: State): (r: State)
  {
    CompletionCheck(ResolveLandings(HorizontalStep(PlayerUpdate(s))))
  }

  /** `n` frames in a row. */
  function Ticks(s: State, n: nat): (r: State)
    decreases n
  {
    if n == 0 then s else Ticks(Tick(s), n - 1)
  }

  /** `startGame`: a first start reinitialises and runs a frame at once (`animate()` runs
      its body synchronously); a start while paused resumes with a frame; otherwise
      nothing happens. */
  function Start(s: State): (r: State)
  {
    if !s.gameStarted then
      Tick(Initialize(s).(running := true)).(gameStarted := true, isPaused := false)
    else if s.isPaused then
      Tick(s.(isPaused := false, running := true))
    else
      s
  }

  /** `pauseGame`: sets the pause flag and cancels the frame chain, unless already paused. */
  function Pause(s: State): (r: State)
  {
    if !s.isPaused then s.(isPaused := true, running := false) else s
  }

  /** `resetGame`: cancel, reinitialise, mark as not started and not paused, run a frame. */
  function Reset(s: State): (r: State)
  {
    var cancelled := s.(running := false);
    var restarted := Initialize(cancelled).(gameStarted := false, isPaused := false);
    Tick(restarted.(running := true))
  }

  /** The `keydown` handler: ignored while paused; 'a' and 'd' hold a direction, 'w'
      jumps only when the vertical speed is exactly zero. */
  function KeyDown(s: State, key: char): (r: State)
  {
    if s.isPaused then s
    else if key == 'a' then s.(keys := s.keys.(left := true))
    else if key == 'd' then s.(keys := s.keys.(right := true))
    else if key == 'w' then
      if s.player.velocity.y == 0.0
      then s.(player := s.player.(velocity := s.player.velocity.(y := s.player.velocity.y - JumpImpulse)))
      else s
    else s
  }

  /** The `keyup` handler: releases 'a' or 'd' whatever the pause state. */
  function KeyUp(s: State, key: char): (r: State)
  {
    if key == 'a' then s.(keys := s.keys.(left := false))
    else if key == 'd' then s.(keys := s.keys.(right := false))
    else s
  }

  /** The delayed callback that hides the level banner. */
  function DismissAnnouncement(s: State): (r: State)
  {
    s.(levelAnnouncement := false)
  }

  // ---------------------------------------------------------------- horizontal mode

  /** Scroll offset, platforms and background are all as before. */
  predicate WorldStill(s: State, r: State)
  {
    r.scrollOffset == s.scrollOffset && r.platforms == s.platforms &&
    r.genericObjects == s.genericObjects
  }

  /** The world scrolled one step in direction `dir` (1 is right, -1 is left): the offset
      moved by ScrollSpeed, platforms by PlatformShift and the background by ParallaxShift,
      all in the opposite sense. */
  predicate ScrolledBy(s: State, r: State, dir: int)
  {
    r.scrollOffset == s.scrollOffset + dir * ScrollSpeed &&
    r.platforms == Shift(s.platforms, -(dir as real) * PlatformShift) &&
    r.genericObjects == Shift(s.genericObjects, -(dir as real) * ParallaxShift)
  }

  /** Exactly one of "player moves", "world scrolls", "nothing moves" happens, and which
      one is decided by the held keys and the player's position:
      - the player moves right exactly when right is held inside the right bound, and
        left when left is held inside the left bound and right does not take priority;
      - the world scrolls right exactly when only right is held at or past the right
        bound, and left exactly when only left is held at or before the left bound;
      - otherwise no key is held and nothing moves.
      Position, vertical speed, keys and flags never change here. */
  lemma HorizontalModes(s: State)
    ensures var r := HorizontalStep(s);
      var x := s.player.position.x;
      r.player.position == s.player.position &&
      r.player.velocity.y == s.player.velocity.y &&
      r.(player := s.player, scrollOffset := s.scrollOffset, platforms := s.platforms,
         genericObjects := s.genericObjects) == s &&
      (r.player.velocity.x == PlayerSpeed <==> s.keys.right && x < RightBound) &&
      (r.player.velocity.x == -PlayerSpeed <==>
         s.keys.left && x > LeftBound && !(s.keys.right && x < RightBound)) &&
      (r.player.velocity.x != 0.0 ==> WorldStill(s, r)) &&
      (ScrolledBy(s, r, 1) <==> s.keys.right && !s.keys.left && x >= RightBound) &&
      (ScrolledBy(s, r, -1) <==> s.keys.left && !s.keys.right && x <= LeftBound) &&
      (ScrolledBy(s, r, 1) || ScrolledBy(s, r, -1) ==> r.player.velocity.x == 0.0) &&
      (!WorldStill(s, r) ==> ScrolledBy(s, r, 1) || ScrolledBy(s, r, -1)) &&
      (r.player.velocity.x == 0.0 && WorldStill(s, r) <==> !s.keys.left && !s.keys.right)
  {
    var x := s.player.position.x;
    if s.keys.right && x < RightBound {
    } else if s.keys.left && x > LeftBound {
    } else if s.keys.right {
      assert -(1 as real) * PlatformShift == -PlatformShift;
      assert -(1 as real) * ParallaxShift == -ParallaxShift;
    } else if s.keys.left {
      assert -((-1) as real) * PlatformShift == PlatformShift;
      assert -((-1) as real) * ParallaxShift == ParallaxShift;
    }
  }

  /** One scroll step in direction `dir` keeps the scroll invariant. */
  lemma AlignedShift(tile: Tile, ps: seq<Vec2>, gs: seq<Vec2>, scroll: int, dir: int)
    requires Aligned(tile, ps, gs, scroll)
    ensures Aligned(tile, Shift(ps, -(dir as real) * PlatformShift),
                    Shift(gs, -(dir as real) * ParallaxShift), scroll + dir * ScrollSpeed)
  {
  }

  /** The horizontal step keeps the scroll invariant. */
  lemma HorizontalCoherent(s: State)
    requires Coherent(s)
    ensures Coherent(HorizontalStep(s))
  {
    var r := HorizontalStep(s);
    HorizontalModes(s);
    if ScrolledBy(s, r, 1) {
      AlignedShift(s.tile, s.platforms, s.genericObjects, s.scrollOffset, 1);
    } else if ScrolledBy(s, r, -1) {
      AlignedShift(s.tile, s.platforms, s.genericObjects, s.scrollOffset, -1);
    }
  }

  /** What a frame does, field by field, in terms of the integrated player and the
      horizontal step that follows it. */
  lemma TickView(s: State)
    ensures var u := s.(player := Integrate(s.player));
      var h := HorizontalStep(u);
      var r := Tick(s);
      r.tile == s.tile && r.keys == s.keys && r.gameStarted == s.gameStarted &&
      r.isPaused == s.isPaused && r.running == s.running &&
      r.levelAnnouncement == s.levelAnnouncement &&
      r.platforms == h.platforms && r.genericObjects == h.genericObjects &&
      r.scrollOffset == h.scrollOffset &&
      r.player.position == u.player.position && r.player.velocity.x == h.player.velocity.x &&
      r.player == Resolve(h.player, h.platforms, s.tile.width) &&
      r.levelCompleted == (s.levelCompleted || h.scrollOffset > CompletionDistance)
  {
    var u := s.(player := Integrate(s.player));
    var h := HorizontalStep(u);
    HorizontalModes(u);
    ResolveFrame(h.player, h.platforms, s.tile.width);
  }

  // ---------------------------------------------------------------- the frame

  /** Within a frame the player moves by the velocity it had before the frame; the
      horizontal speed chosen in this frame takes effect only in the next one. The
      vertical speed is the integrated one unless a platform catches the moved player. */
  lemma TickMotion(s: State)
    ensures var r := Tick(s);
      var moved := Integrate(s.player);
      var h := HorizontalStep(PlayerUpdate(s));
      r.player.position == Vec2(s.player.position.x + s.player.velocity.x,
                                s.player.position.y + s.player.velocity.y) &&
      r.player.velocity.x == h.player.velocity.x &&
      r.player.velocity.y ==
        (if AnyLanding(h.player, h.platforms, s.tile.width) then 0.0 else moved.velocity.y)
  {
    var h := HorizontalStep(PlayerUpdate(s));
    TickView(s);
    HorizontalModes(PlayerUpdate(s));
    ResolveMeaning(h.player, h.platforms, s.tile.width);
  }

  /** A frame keeps the scroll invariant, the keys, the tile and the lifecycle flags. */
  lemma TickCoherent(s: State)
    requires Coherent(s)
    ensures Coherent(Tick(s))
    ensures var r := Tick(s);
      r.tile == s.tile && r.keys == s.keys && r.gameStarted == s.gameStarted &&
      r.isPaused == s.isPaused && r.running == s.running &&
      r.levelAnnouncement == s.levelAnnouncement
  {
    HorizontalCoherent(PlayerUpdate(s));
    TickView(s);
  }

  /** The completion latch: after a frame the level is completed exactly when it already
      was or the scroll offset now exceeds the completion distance. */
  lemma TickLatch(s: State)
    ensures Tick(s).levelCompleted ==
      (s.levelCompleted || Tick(s).scrollOffset > CompletionDistance)
  {
  }

  /** No sequence of frames un-completes the level. */
  lemma {:induction false} TicksLatch(s: State, n: nat)
    requires s.levelCompleted
    ensures Ticks(s, n).levelCompleted
    decreases n
  {
    if n > 0 {
      TicksLatch(Tick(s), n - 1);
    }
  }

  /** The player holds only the right key and stands still at or past the right bound. */
  predicate PinnedRight(s: State)
  {
    s.keys.right && !s.keys.left && s.player.position.x >= RightBound &&
    s.player.velocity.x == 0.0
  }

  /** While pinned at the right bound, every frame scrolls the world by ScrollSpeed and
      leaves the player where it is; the level is completed once the offset exceeds the
      completion distance after some frame. */
  lemma {:induction false} HoldRightScrolls(s: State, n: nat)
    requires PinnedRight(s)
    ensures var r := Ticks(s, n);
      PinnedRight(r) && r.player.position.x == s.player.position.x &&
      r.scrollOffset == s.scrollOffset + n * ScrollSpeed &&
      r.levelCompleted == (s.levelCompleted || (n > 0 && s.scrollOffset + n * ScrollSpeed > CompletionDistance))
    decreases n
  {
    if n > 0 {
      var t := Tick(s);
      TickView(s);
      HorizontalModes(s.(player := Integrate(s.player)));
      HoldRightScrolls(t, n - 1);
    }
  }

  /** From zero scroll, pinned at the right bound: 400 frames bring the offset to exactly
      2000 without completing the level; the 401st completes it. */
  lemma HoldRightCompletes(s: State)
    requires PinnedRight(s) && s.scrollOffset == 0 && !s.levelCompleted
    ensures Ticks(s, 400).scrollOffset == 2000 && !Ticks(s, 400).levelCompleted
    ensures Ticks(s, 401).levelCompleted
  {
    HoldRightScrolls(s, 400);
    HoldRightScrolls(s, 401);
  }

  /** Holding only right while walking towards the right bound at PlayerSpeed: the frame
      that reaches the bound pins the player and already scrolls once. */
  lemma {:induction false} ApproachRight(s: State, m: nat)
    requires s.keys.right && !s.keys.left && s.player.velocity.x == PlayerSpeed
    requires m >= 1 && s.player.position.x == RightBound - (m as real) * PlayerSpeed
    ensures var r := Ticks(s, m);
      PinnedRight(r) && r.player.position.x == RightBound &&
      r.scrollOffset == s.scrollOffset + ScrollSpeed &&
      r.levelCompleted == (s.levelCompleted || s.scrollOffset + ScrollSpeed > CompletionDistance)
    decreases m
  {
    var t := Tick(s);
    TickView(s);
    HorizontalModes(s.(player := Integrate(s.player)));
    assert t.player.position.x == RightBound - ((m - 1) as real) * PlayerSpeed;
    if m > 1 {
      ApproachRight(t, m - 1);
    }
  }

  /** Walking towards the right bound and then holding on: `m` frames to reach the bound
      (the last of them scrolls once), then one more scroll step per frame. */
  lemma {:induction false} ApproachThenScroll(s: State, m: nat, n: nat)
    requires s.keys.right && !s.keys.left && s.player.velocity.x == PlayerSpeed
    requires m >= 1 && s.player.position.x == RightBound - (m as real) * PlayerSpeed
    ensures var r := Ticks(s, m + n);
      PinnedRight(r) && r.player.position.x == RightBound &&
      r.scrollOffset == s.scrollOffset + (n + 1) * ScrollSpeed &&
      r.levelCompleted == (s.levelCompleted || s.scrollOffset + (n + 1) * ScrollSpeed > CompletionDistance)
    decreases m
  {
    var t := Tick(s);
    TickView(s);
    HorizontalModes(s.(player := Integrate(s.player)));
    assert Ticks(s, m + n) == Ticks(t, (m - 1) + n);
    if m > 1 {
      assert t.player.position.x == RightBound - ((m - 1) as real) * PlayerSpeed;
      ApproachThenScroll(t, m - 1, n);
    } else {
      HoldRightScrolls(t, n);
    }
  }

  /** Holding only right from a first start: the start's own frame sets the player walking,
      60 frames later it reaches the bound, and the level completes on the 460th frame after
      the start, when the offset first exceeds 2000. */
  lemma StartHoldingRight(s: State)
    requires !s.gameStarted && s.keys.right && !s.keys.left
    ensures Ticks(Start(s), 459).scrollOffset == 2000 && !Ticks(Start(s), 459).levelCompleted
    ensures Ticks(Start(s), 460).scrollOffset == 2005 && Ticks(Start(s), 460).levelCompleted
  {
    var init := Initialize(s).(running := true);
    var u := init.(player := Integrate(init.player));
    var t := Tick(init);
    TickView(init);
    HorizontalModes(u);
    assert u.player.position.x == 100.0;
    assert t.player.velocity.x == PlayerSpeed && t.keys == s.keys;
    assert t.scrollOffset == 0 && !t.levelCompleted;
    var r := Start(s);
    assert r == t.(gameStarted := true, isPaused := false);
    assert r.player.position.x == RightBound - (60 as real) * PlayerSpeed;
    ApproachThenScroll(r, 60, 399);
    ApproachThenScroll(r, 60, 400);
  }

  /** The scenario at the left bound: a frame starting at x = 100 with no horizontal speed
      and only left held keeps the player still and scrolls everything one step left. */
  lemma LeftBoundScrolls(s: State)
    requires s.keys.left && !s.keys.right
    requires s.player.position.x == LeftBound && s.player.velocity.x == 0.0
    ensures var r := Tick(s);
      r.player.velocity.x == 0.0 && r.player.position.x == LeftBound &&
      r.scrollOffset == s.scrollOffset - ScrollSpeed &&
      |r.platforms| == |s.platforms| &&
      (forall i :: 0 <= i < |s.platforms| ==>
         r.platforms[i] == Vec2(s.platforms[i].x + PlatformShift, s.platforms[i].y))
  {
    TickView(s);
    HorizontalModes(s.(player := Integrate(s.player)));
  }

  // ---------------------------------------------------------------- lifecycle

  /** Page load yields a valid, not yet started, unscheduled session at zero scroll. */
  lemma BootValid(tile: Tile)
    ensures var s := Boot(tile);
      Valid(s) && !s.gameStarted && !s.isPaused && !s.running &&
      s.scrollOffset == 0 && !s.levelCompleted && s.player == Spawn()
  {
  }

  /** A reinitialised session satisfies the scroll invariant. */
  lemma InitializeCoherent(s: State)
    ensures Coherent(Initialize(s))
  {
  }

  /** A first start forgets all earlier progress: two never-started sessions with the same
      tile and keys start into the same state, which is running, not paused, and one frame
      away from spawn at zero scroll. */
  lemma StartFresh(s1: State, s2: State)
    requires !s1.gameStarted && !s2.gameStarted
    requires s1.tile == s2.tile && s1.keys == s2.keys
    ensures Start(s1) == Start(s2)
    ensures var r := Start(s1);
      r.gameStarted && !r.isPaused && r.running && !r.levelCompleted &&
      r.levelAnnouncement && -ScrollSpeed <= r.scrollOffset <= ScrollSpeed &&
      r.player.position == Vec2(100.0, 101.0)
  {
    TickView(Initialize(s1).(running := true));
  }

  /** A start while paused resumes the frozen world with its next frame and clears the
      pause flag; nothing is reinitialised (the banner and the latch are as they were,
      up to this frame's latch). */
  lemma StartResumes(s: State)
    requires s.gameStarted && s.isPaused
    ensures Start(s) == Tick(s).(isPaused := false, running := true)
    ensures Start(s).levelAnnouncement == s.levelAnnouncement
    ensures s.levelCompleted ==> Start(s).levelCompleted
  {
    var t := s.(isPaused := false, running := true);
    var h := HorizontalStep(PlayerUpdate(s));
    assert HorizontalStep(PlayerUpdate(t)) == h.(isPaused := false, running := true);
    assert ResolveLandings(HorizontalStep(PlayerUpdate(t))) ==
      ResolveLandings(h).(isPaused := false, running := true);
  }

  /** A start while already running is a no-op. */
  lemma StartWhileRunning(s: State)
    requires s.gameStarted && !s.isPaused
    ensures Start(s) == s
  {
  }

  /** Pausing sets the pause flag whether or not the game was started, cancels the frame
      chain, touches nothing else, and pausing twice is pausing once. */
  lemma PauseIdempotent(s: State)
    requires Lifecycle(s)
    ensures Pause(s).isPaused && !Pause(s).running
    ensures Pause(s).(isPaused := s.isPaused, running := s.running) == s
    ensures Pause(Pause(s)) == Pause(s)
  {
  }

  /** A reset is a first start that leaves the game marked as not started: whatever the
      earlier state, the result depends only on the tile and the keys. */
  lemma ResetRestarts(s: State)
    ensures Reset(s) == Start(s.(gameStarted := false)).(gameStarted := false)
    ensures var r := Reset(s);
      !r.gameStarted && !r.isPaused && r.running && !r.levelCompleted
  {
  }

  lemma ResetForgets(s1: State, s2: State)
    requires s1.tile == s2.tile && s1.keys == s2.keys
    ensures Reset(s1) == Reset(s2)
  {
  }

  // ---------------------------------------------------------------- input

  /** While paused a key press changes nothing. Otherwise 'a' and 'd' only set their
      direction flag and 'w' only changes the vertical speed, by -JumpImpulse, and only
      when it was exactly zero. Nothing else ever changes. */
  lemma KeyDownGated(s: State, key: char)
    ensures s.isPaused ==> KeyDown(s, key) == s
    ensures var r := KeyDown(s, key);
      r.(keys := s.keys, player := s.player) == s &&
      r.player.position == s.player.position &&
      r.player.velocity.x == s.player.velocity.x &&
      r.keys.left == (s.keys.left || (!s.isPaused && key == 'a')) &&
      r.keys.right == (s.keys.right || (!s.isPaused && key == 'd')) &&
      (r.player.velocity.y != s.player.velocity.y <==>
         !s.isPaused && key == 'w' && s.player.velocity.y == 0.0) &&
      (r.player.velocity.y != s.player.velocity.y ==> r.player.velocity.y == -JumpImpulse)
  {
  }

  /** A key release clears its direction flag regardless of the pause state, and changes
      nothing else. */
  lemma KeyUpAlways(s: State, key: char)
    ensures var r := KeyUp(s, key);
      r.(keys := s.keys) == s &&
      r.keys.left == (s.keys.left && key != 'a') &&
      r.keys.right == (s.keys.right && key != 'd')
  {
  }

  /** A direction released during a pause stays released after resuming, so no key is
      stuck on resume. */
  lemma NoStuckKeyOnResume(s: State)
    requires Lifecycle(s) && s.gameStarted
    ensures !Start(KeyUp(Pause(s), 'd')).keys.right
    ensures !Start(KeyUp(Pause(s), 'a')).keys.left
  {
  }

  // ---------------------------------------------------------------- preservation

  /** A scheduled frame keeps both invariants and never clears the completion latch. */
  lemma TickValid(s: State)
    requires Valid(s) && s.running
    ensures Valid(Tick(s))
    ensures s.levelCompleted ==> Tick(s).levelCompleted
  {
    TickCoherent(s);
  }

  /** A start keeps both invariants; only a first start (which reinitialises) can clear
      the completion latch. */
  lemma StartValid(s: State)
    requires Valid(s)
    ensures Valid(Start(s))
    ensures s.levelCompleted && s.gameStarted ==> Start(s).levelCompleted
  {
    if !s.gameStarted {
      InitializeCoherent(s);
      TickCoherent(Initialize(s).(running := true));
    } else if s.isPaused {
      TickCoherent(s.(isPaused := false, running := true));
    }
  }

  /** A pause keeps both invariants and the completion latch. */
  lemma PauseValid(s: State)
    requires Valid(s)
    ensures Valid(Pause(s))
    ensures Pause(s).levelCompleted == s.levelCompleted
  {
  }

  /** A reset keeps both invariants. */
  lemma ResetValid(s: State)
    requires Valid(s)
    ensures Valid(Reset(s))
  {
    var restarted := Initialize(s.(running := false)).(gameStarted := false, isPaused := false);
    InitializeCoherent(s.(running := false));
    TickCoherent(restarted.(running := true));
  }

  /** The key handlers keep both invariants and the latch. */
  lemma InputValid(s: State, key: char)
    requires Valid(s)
    ensures Valid(KeyDown(s, key)) && Valid(KeyUp(s, key))
    ensures KeyDown(s, key).levelCompleted == s.levelCompleted
    ensures KeyUp(s, key).levelCompleted == s.levelCompleted
  {
    KeyDownGated(s, key);
    var d := KeyDown(s, key);
    assert d.tile == s.tile && d.platforms == s.platforms && d.genericObjects == s.genericObjects;
    assert d.scrollOffset == s.scrollOffset;
    KeyUpAlways(s, key);
    var u := KeyUp(s, key);
    assert u.tile == s.tile && u.platforms == s.platforms && u.genericObjects == s.genericObjects;
    assert u.scrollOffset == s.scrollOffset;
  }

  /** The banner callback keeps both invariants; it touches neither the completion latch
      nor the scroll state. */
  lemma DismissValid(s: State)
    requires Valid(s)
    ensures Valid(DismissAnnouncement(s))
    ensures DismissAnnouncement(s).levelCompleted == s.levelCompleted
    ensures DismissAnnouncement(s).scrollOffset == s.scrollOffset
  {
  }
}
