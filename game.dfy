/** The game session as the browser program keeps it: mutable player, platform and
    background state updated in place by the frame step, the lifecycle buttons and the
    key handlers. Every method is proved to do exactly what the corresponding function
    of module `Session` describes. */
module Game {
  import opened Kinematics
  import opened World
  import opened Session

  /** Moves every element of `a` horizontally by `dx`, in place. */
  method ShiftInPlace(a: array<Vec2>, dx: real)
    modifies a
    ensures a[..] == Shift(old(a[..]), dx)
  {
    var i := 0;
    while i < a.Length
      invariant 0 <= i <= a.Length
      invariant forall k :: 0 <= k < i ==> a[k] == Vec2(old(a[k]).x + dx, old(a[k]).y)
      invariant forall k :: i <= k < a.Length ==> a[k] == old(a[k])
    {
      a[i] := a[i].(x := a[i].x + dx);
      i := i + 1;
    }
  }

  class GameSession {
    /** Size of the platform tile image. */
    const tileWidth: real
    const tileHeight: real

    var position: Vec2
    var velocity: Vec2
    var platforms: array<Vec2>
    var genericObjects: array<Vec2>
    var scrollOffset: int
    var leftPressed: bool
    var rightPressed: bool
    var gameStarted: bool
    var isPaused: bool
    var levelCompleted: bool
    var levelAnnouncement: bool
    /** A frame callback is scheduled. */
    var running: bool

    /** The session as a value. */
    ghost function Snapshot(): State
      reads this, platforms, genericObjects
    {
      State(Tile(tileWidth, tileHeight), Body(position, velocity), platforms[..],
            genericObjects[..], scrollOffset, Keys(leftPressed, rightPressed),
            gameStarted, isPaused, levelCompleted, levelAnnouncement, running)
    }

    /** The geometry keeps the scroll invariant, in two separate arrays. */
    ghost predicate WorldValid()
      reads this, platforms, genericObjects
    {
      platforms != genericObjects && Coherent(Snapshot())
    }

    ghost predicate Valid()
      reads this, platforms, genericObjects
    {
      WorldValid() && Lifecycle(Snapshot())
    }

    /** Page load: the module-level initial values, then `initializeGame`. */
    constructor (tileWidth: real, tileHeight: real)
      requires tileWidth > 0.0 && tileHeight > 0.0
      ensures Valid() && Snapshot() == Boot(Tile(tileWidth, tileHeight))
    {
      this.tileWidth := tileWidth;
      this.tileHeight := tileHeight;
      position := Vec2(100.0, 100.0);
      velocity := Vec2(0.0, 1.0);
      platforms := new Vec2[0];
      genericObjects := new Vec2[0];
      scrollOffset := 0;
      leftPressed, rightPressed := false, false;
      gameStarted, isPaused, levelCompleted := false, false, false;
      levelAnnouncement, running := true, false;
      new;
      Initialize();
    }

    /** `initializeGame`: a new player, zero scroll, and freshly built geometry. */
    method Initialize()
      modifies this
      ensures fresh(platforms) && fresh(genericObjects)
      ensures WorldValid()
      ensures Snapshot() == Session.Initialize(old(Snapshot()))
    {
      position := Vec2(100.0, 100.0);
      velocity := Vec2(0.0, 1.0);
      scrollOffset := 0;
      levelCompleted := false;
      levelAnnouncement := true;
      var floor := CanvasHeight - tileHeight;
      platforms := new Vec2[] [
        Vec2(-1.0, floor),
        Vec2(tileWidth - 3.0, floor),
        Vec2(tileWidth * 2.0 - 6.0, floor),
        Vec2(tileWidth * 3.0 - 9.0, floor),
        Vec2(tileWidth * 4.0 - 12.0, floor),
        Vec2(tileWidth * 5.0 - 15.0, floor)];
      genericObjects := new Vec2[] [Vec2(0.0, 0.0)];
      assert platforms[..] == InitialPlatforms(Tile(tileWidth, tileHeight));
      assert genericObjects[..] == InitialBackgrounds;
      InitializeCoherent(old(Snapshot()));
    }

    /** `Player.update`: move by the current velocity, then apply gravity or stop at the
        canvas floor. */
    method PlayerUpdate()
      modifies this`position, this`velocity
      ensures Snapshot() == Session.PlayerUpdate(old(Snapshot()))
    {
      position := position.(x := position.x + velocity.x);
      position := position.(y := position.y + velocity.y);
      if position.y + PlayerHeight + velocity.y <= CanvasHeight {
        velocity := velocity.(y := velocity.y + Gravity);
      } else {
        velocity := velocity.(y := 0.0);
      }
    }

    /** The horizontal key block: move the player inside the screen bounds, otherwise
        hold it and scroll platforms and background. */
    method HorizontalStep()
      requires platforms != genericObjects
      modifies this`velocity, this`scrollOffset, platforms, genericObjects
      ensures Snapshot() == Session.HorizontalStep(old(Snapshot()))
    {
      if rightPressed && position.x < RightBound {
        velocity := velocity.(x := PlayerSpeed);
      } else if leftPressed && position.x > LeftBound {
        velocity := velocity.(x := -PlayerSpeed);
      } else {
        velocity := velocity.(x := 0.0);
        if rightPressed {
          scrollOffset := scrollOffset + ScrollSpeed;
          ShiftInPlace(platforms, -PlatformShift);
          ShiftInPlace(genericObjects, -ParallaxShift);
        } else if leftPressed {
          scrollOffset := scrollOffset - ScrollSpeed;
          ShiftInPlace(platforms, PlatformShift);
          ShiftInPlace(genericObjects, ParallaxShift);
        }
      }
    }

    /** The landing pass: every platform in order, zeroing the vertical speed when the
        player lands on it. */
    method ResolveLandings()
      modifies this`velocity
      ensures Snapshot() == Session.ResolveLandings(old(Snapshot()))
    {
      var i := 0;
      while i < platforms.Length
        invariant 0 <= i <= platforms.Length
        invariant Resolve(Body(position, velocity), platforms[i..], tileWidth) ==
                  Resolve(Body(position, old(velocity)), platforms[..], tileWidth)
      {
        assert platforms[i..][1..] == platforms[i + 1..];
        if Lands(Body(position, velocity), platforms[i], tileWidth) {
          velocity := velocity.(y := 0.0);
        }
        i := i + 1;
      }
    }

    /** One scheduled frame of `animate`, without drawing. */
    method Tick()
      requires WorldValid() && running
      modifies this, platforms, genericObjects
      ensures platforms == old(platforms) && genericObjects == old(genericObjects)
      ensures WorldValid()
      ensures old(Valid()) ==> Valid()
      ensures Snapshot() == Session.Tick(old(Snapshot()))
    {
      PlayerUpdate();
      HorizontalStep();
      ResolveLandings();
      if scrollOffset > CompletionDistance && !levelCompleted {
        levelCompleted := true;
      }
      TickCoherent(old(Snapshot()));
      TickView(old(Snapshot()));
    }

    /** `animate()` called directly: schedule the frame chain and run one frame at once. */
    method Animate()
      requires WorldValid()
      modifies this, platforms, genericObjects
      ensures platforms == old(platforms) && genericObjects == old(genericObjects)
      ensures WorldValid()
      ensures Snapshot() == Session.Tick(old(Snapshot()).(running := true))
    {
      running := true;
      Tick();
    }

    /** `startGame`. */
    method Start()
      requires Valid()
      modifies this, platforms, genericObjects
      ensures Valid()
      ensures Snapshot() == Session.Start(old(Snapshot()))
    {
      ghost var before := Snapshot();
      if !gameStarted {
        Initialize();
        Animate();
        gameStarted := true;
        isPaused := false;
        assert Snapshot() == Session.Start(before);
      } else if isPaused {
        isPaused := false;
        Animate();
        assert Snapshot() == Session.Start(before);
      }
    }

    /** `pauseGame`. */
    method Pause()
      requires Valid()
      modifies this
      ensures Valid()
      ensures Snapshot() == Session.Pause(old(Snapshot()))
    {
      if !isPaused {
        isPaused := true;
        running := false;
      }
      PauseValid(old(Snapshot()));
    }

    /** `resetGame`. */
    method Reset()
      requires Valid()
      modifies this, platforms, genericObjects
      ensures Valid()
      ensures Snapshot() == Session.Reset(old(Snapshot()))
    {
      ghost var before := Snapshot();
      ResetValid(before);
      running := false;
      Initialize();
      gameStarted := false;
      isPaused := false;
      assert Snapshot() ==
        Session.Initialize(before.(running := false)).(gameStarted := false, isPaused := false);
      Animate();
    }

    /** The `keydown` handler. */
    method KeyDown(key: char)
      requires Valid()
      modifies this`leftPressed, this`rightPressed, this`velocity
      ensures Valid()
      ensures Snapshot() == Session.KeyDown(old(Snapshot()), key)
    {
      if !isPaused {
        if key == 'a' {
          leftPressed := true;
        } else if key == 'd' {
          rightPressed := true;
        } else if key == 'w' {
          if velocity.y == 0.0 {
            velocity := velocity.(y := velocity.y - JumpImpulse);
          }
        }
      }
      InputValid(old(Snapshot()), key);
    }

    /** The `keyup` handler. */
    method KeyUp(key: char)
      requires Valid()
      modifies this`leftPressed, this`rightPressed
      ensures Valid()
      ensures Snapshot() == Session.KeyUp(old(Snapshot()), key)
    {
      if key == 'a' {
        leftPressed := false;
      } else if key == 'd' {
        rightPressed := false;
      }
      InputValid(old(Snapshot()), key);
    }

    /** The delayed callback that hides the level banner. */
    method DismissAnnouncement()
      requires Valid()
      modifies this`levelAnnouncement
      ensures Valid()
      ensures Snapshot() == Session.DismissAnnouncement(old(Snapshot()))
    {
      levelAnnouncement := false;
      DismissValid(old(Snapshot()));
    }
  }
}
