/** The player's kinematic body and its per-frame gravity integration (`Player.update`). */
module Kinematics {

  /** A point or velocity in world units. */
  datatype Vec2 = Vec2(x: real, y: real)

  /** The player: position of the top-left corner and velocity per frame. */
  datatype Body = Body(position: Vec2, velocity: Vec2)

  const Gravity: real := 1.5
  const CanvasHeight: real := 576.0
  const PlayerWidth: real := 50.0
  const PlayerHeight: real := 50.0

  /** A freshly constructed player: at (100, 100), falling at 1 unit per frame. */
  function Spawn(): (r: Body)
  {
    Body(Vec2(100.0, 100.0), Vec2(0.0, 1.0))
  }

  /** One integration step: move by the old velocity, then either accelerate by gravity
      or, when the next move would take the bottom edge past the canvas floor, stop. */
  function Integrate(b: Body): (r: Body)
  {
    var moved := Vec2(b.position.x + b.velocity.x, b.position.y + b.velocity.y);
    var vy := if moved.y + PlayerHeight + b.velocity.y <= CanvasHeight
              then b.velocity.y + Gravity
              else 0.0;
    Body(moved, Vec2(b.velocity.x, vy))
  }

  /** `n` integration steps in a row. */
  function IntegrateN(b: Body, n: nat): (r: Body)
    decreases n
  {
    if n == 0 then b else Integrate(IntegrateN(b, n - 1))
  }

  /** Distance fallen in `n` free-fall steps starting at vertical speed `v`:
      the sum of v + Gravity * k for k in 0 .. n-1. */
  function Drop(v: real, n: nat): (r: real)
    decreases n
  {
    if n == 0 then 0.0 else Drop(v, n - 1) + v + Gravity * ((n - 1) as real)
  }

  /** The bottom edge never reaches past the floor during the first `n` steps
      (it suffices to check the last step when the body starts non-ascending). */
  predicate FallsFreely(b: Body, n: nat)
  {
    n > 0 ==>
      b.position.y + Drop(b.velocity.y, n) + PlayerHeight
        + b.velocity.y + Gravity * ((n - 1) as real) <= CanvasHeight
  }

  /** While nothing stops the fall, each step moves by the pre-step velocity and then adds
      exactly Gravity: after n steps the speed is v + n * Gravity and the height has grown
      by Drop(v, n). Moving after updating the velocity would add Gravity * n more. */
  lemma {:induction false} FreeFall(b: Body, n: nat)
    requires b.velocity.y >= 0.0
    requires FallsFreely(b, n)
    ensures IntegrateN(b, n) ==
      Body(Vec2(b.position.x + (n as real) * b.velocity.x, b.position.y + Drop(b.velocity.y, n)),
           Vec2(b.velocity.x, b.velocity.y + Gravity * (n as real)))
    decreases n
  {
    if n > 0 {
      var m := n - 1;
      assert FallsFreely(b, m) by {
        if m > 0 {
          assert Drop(b.velocity.y, n) == Drop(b.velocity.y, m) + b.velocity.y + Gravity * (m as real);
        }
      }
      FreeFall(b, m);
    }
  }

  /** The closed form of the free-fall distance. */
  lemma {:induction false} DropClosedForm(v: real, n: nat)
    ensures Drop(v, n) == (n as real) * v + Gravity * (n as real) * ((n as real) - 1.0) / 2.0
    decreases n
  {
    if n > 0 {
      DropClosedForm(v, n - 1);
      var k := (n - 1) as real;
      assert (k + 1.0) * v == k * v + v;
      assert (k + 1.0) * k == k * (k - 1.0) + 2.0 * k;
    }
  }

  /** Ten gravity-only steps from the spawn point: height 100 + sum of (1 + 1.5k) for
      k = 0..9 = 177.5, and vertical speed 1 + 1.5 * 10 = 16. */
  lemma GravityScenario()
    ensures IntegrateN(Spawn(), 10) == Body(Vec2(100.0, 177.5), Vec2(0.0, 16.0))
  {
    DropClosedForm(1.0, 10);
    FreeFall(Spawn(), 10);
  }

  /** Once the bottom edge is below the floor with no vertical speed, the body stays at the
      same height (it still moves horizontally by its x-speed). */
  lemma RestsBelowFloor(b: Body)
    requires b.velocity.y == 0.0 && b.position.y + PlayerHeight > CanvasHeight
    ensures Integrate(b).position.y == b.position.y && Integrate(b).velocity.y == 0.0
  {
  }

  /** A zero vertical speed is not a resting state by itself: while the bottom edge is at or
      above the floor, the next step accelerates again. */
  lemma ClampReleases(b: Body)
    requires b.velocity.y == 0.0 && b.position.y + PlayerHeight <= CanvasHeight
    ensures Integrate(b).position == Vec2(b.position.x + b.velocity.x, b.position.y)
    ensures Integrate(b).velocity.y == Gravity
  {
  }
}
