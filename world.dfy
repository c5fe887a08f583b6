/** Level geometry: the ground tiles and background layer, the horizontal shift applied to
    them while the world scrolls, and the per-platform landing check. */
module World {
  import opened Kinematics

  /** Size of the platform tile image; `canvas.js` reads it from the loaded image. */
  datatype Tile = Tile(width: real, height: real)

  const TileOverlap: real := 3.0
  const PlatformCount: nat := 6

  /** The six ground tiles laid left to right along the bottom of the canvas. */
  function InitialPlatforms(tile: Tile): (r: seq<Vec2>)
    ensures |r| == PlatformCount
  {
    var floor := CanvasHeight - tile.height;
    [ Vec2(-1.0, floor),
      Vec2(tile.width - 3.0, floor),
      Vec2(tile.width * 2.0 - 6.0, floor),
      Vec2(tile.width * 3.0 - 9.0, floor),
      Vec2(tile.width * 4.0 - 12.0, floor),
      Vec2(tile.width * 5.0 - 15.0, floor) ]
  }

  /** The single background layer, anchored at the world origin. */
  const InitialBackgrounds: seq<Vec2> := [Vec2(0.0, 0.0)]

  /** Tile k (k >= 1) sits at k tile widths minus k overlaps, all on the floor line, so
      neighbours from the second tile on overlap by exactly TileOverlap; the first tile
      is offset one unit to the left of the origin. */
  lemma LayoutAbutment(tile: Tile)
    ensures var ps := InitialPlatforms(tile);
      ps[0].x == -1.0 &&
      (forall k :: 1 <= k < PlatformCount ==>
         ps[k].x == (k as real) * (tile.width - TileOverlap)) &&
      (forall k :: 1 <= k < PlatformCount - 1 ==>
         ps[k + 1].x == ps[k].x + tile.width - TileOverlap) &&
      (forall k :: 0 <= k < PlatformCount ==> ps[k].y == CanvasHeight - tile.height)
  {
    var ps := InitialPlatforms(tile);
    forall k | 1 <= k < PlatformCount
      ensures ps[k].x == (k as real) * (tile.width - TileOverlap)
    {
      if k == 1 { } else if k == 2 { } else if k == 3 { } else if k == 4 { } else { }
    }
  }

  /** Every element moved horizontally by `dx` (a `forEach` adding to `position.x`). */
  function Shift(ps: seq<Vec2>, dx: real): (r: seq<Vec2>)
  {
    seq(|ps|, i requires 0 <= i < |ps| => Vec2(ps[i].x + dx, ps[i].y))
  }

  /** Shifting back by the same amount restores the layout, and two shifts add up. */
  lemma ShiftInverse(ps: seq<Vec2>, a: real, b: real)
    ensures Shift(Shift(ps, a), b) == Shift(ps, a + b)
    ensures Shift(Shift(ps, a), -a) == ps
  {
    assert Shift(ps, 0.0) == ps;
  }

  /** The four-conjunct landing test of one platform: the player's bottom edge is at or
      above the platform top, the pending vertical move would reach or pass it, and the
      two boxes overlap horizontally. */
  predicate Lands(b: Body, p: Vec2, width: real)
  {
    b.position.y + PlayerHeight <= p.y &&
    b.position.y + PlayerHeight + b.velocity.y >= p.y &&
    b.position.x + PlayerWidth >= p.x &&
    b.position.x <= p.x + width
  }

  /** The body with its vertical speed zeroed. */
  function Stopped(b: Body): (r: Body)
  {
    b.(velocity := b.velocity.(y := 0.0))
  }

  /** The landing pass as `canvas.js` runs it: platforms in order, each test seeing the
      vertical speed left by the previous ones. */
  function Resolve(b: Body, ps: seq<Vec2>, width: real): (r: Body)
    decreases |ps|
  {
    if ps == [] then b
    else Resolve(if Lands(b, ps[0], width) then Stopped(b) else b, ps[1..], width)
  }

  /** Some platform of `ps` passes the landing test against the body as it was before
      the pass. */
  predicate AnyLanding(b: Body, ps: seq<Vec2>, width: real)
  {
    exists p :: p in ps && Lands(b, p, width)
  }

  /** The sequential pass zeroes the vertical speed exactly when some platform passes the
      test on the pre-pass body, and changes nothing else. */
  lemma {:induction false} ResolveMeaning(b: Body, ps: seq<Vec2>, width: real)
    ensures Resolve(b, ps, width) == if AnyLanding(b, ps, width) then Stopped(b) else b
    decreases |ps|
  {
    if ps != [] {
      var rest := ps[1..];
      assert forall p :: p in ps <==> p == ps[0] || p in rest;
      if Lands(b, ps[0], width) {
        ResolveMeaning(Stopped(b), rest, width);
        assert AnyLanding(b, ps, width);
      } else {
        ResolveMeaning(b, rest, width);
        assert AnyLanding(b, ps, width) == AnyLanding(b, rest, width);
      }
    }
  }

  /** The pass changes at most the vertical speed. */
  lemma ResolveFrame(b: Body, ps: seq<Vec2>, width: real)
    ensures Resolve(b, ps, width).position == b.position
    ensures Resolve(b, ps, width).velocity.x == b.velocity.x
  {
    ResolveMeaning(b, ps, width);
  }

  /** The outcome of the pass does not depend on the order of the platforms. */
  lemma ResolveOrderIndependent(b: Body, ps: seq<Vec2>, qs: seq<Vec2>, width: real)
    requires multiset(ps) == multiset(qs)
    ensures Resolve(b, ps, width) == Resolve(b, qs, width)
  {
    ResolveMeaning(b, ps, width);
    ResolveMeaning(b, qs, width);
    assert forall p :: p in ps <==> p in multiset(ps);
    assert forall p :: p in qs <==> p in multiset(qs);
    assert AnyLanding(b, ps, width) == AnyLanding(b, qs, width);
  }

  /** Running the pass a second time changes nothing. */
  lemma ResolveIdempotent(b: Body, ps: seq<Vec2>, width: real)
    ensures Resolve(Resolve(b, ps, width), ps, width) == Resolve(b, ps, width)
  {
    ResolveMeaning(b, ps, width);
    ResolveMeaning(Resolve(b, ps, width), ps, width);
  }

  /** Only a player that is falling or at rest can land: the test needs a non-negative
      vertical speed. */
  lemma LandingNeedsDescent(b: Body, p: Vec2, width: real)
    requires Lands(b, p, width)
    ensures b.velocity.y >= 0.0
  {
  }
}
