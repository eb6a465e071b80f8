/** The clamps of the update tick: the hero's horizontal position, the
    camera that follows it, and the offsets of the two parallax layers. */
module Viewport {

  /** How far from either end of the world the hero's centre may go. */
  const HeroMargin: real := 20.0
  /** Parallax factor of the far mountains layer. */
  const FarFactor: real := 0.2
  /** Parallax factor of the near hills layer. */
  const NearFactor: real := 0.4

  function Max(a: real, b: real): real { if a >= b then a else b }
  function Min(a: real, b: real): real { if a <= b then a else b }

  /** The hero's x after the clamp `max(20, min(worldWidth - 20, x))`. In a
      world at least 40 wide, the result is the point of
      [20, worldWidth - 20] nearest to x; in a narrower world, the lower bound wins. */
  function ClampHeroX(x: real, worldWidth: real): (r: real)
    ensures 2.0 * HeroMargin <= worldWidth ==> HeroMargin <= r <= worldWidth - HeroMargin
    ensures HeroMargin <= x <= worldWidth - HeroMargin ==> r == x
    ensures x < HeroMargin ==> r == HeroMargin
    ensures 2.0 * HeroMargin <= worldWidth && x > worldWidth - HeroMargin ==> r == worldWidth - HeroMargin
    ensures worldWidth < 2.0 * HeroMargin ==> r == HeroMargin
  {
    Max(HeroMargin, Min(worldWidth - HeroMargin, x))
  }

  /** The camera's x: the hero's x clamped so that the view, `viewWidth` wide,
      never shows anything beyond either end of the world. When the view is
      wider than the world, the camera stays at half the view width. */
  function CameraX(heroX: real, viewWidth: real, worldWidth: real): (r: real)
    ensures viewWidth <= worldWidth ==> viewWidth / 2.0 <= r <= worldWidth - viewWidth / 2.0
    ensures viewWidth / 2.0 <= heroX <= worldWidth - viewWidth / 2.0 ==> r == heroX
    ensures heroX < viewWidth / 2.0 ==> r == viewWidth / 2.0
    ensures viewWidth <= worldWidth && heroX > worldWidth - viewWidth / 2.0 ==> r == worldWidth - viewWidth / 2.0
    ensures worldWidth < viewWidth ==> r == viewWidth / 2.0
  {
    Max(viewWidth / 2.0, Min(worldWidth - viewWidth / 2.0, heroX))
  }

  /** The x position of a background layer: it moves opposite to the camera by
      `factor` times the camera's distance from its leftmost position. */
  function ParallaxX(cameraX: real, viewWidth: real, factor: real): (p: real)
    ensures cameraX == viewWidth / 2.0 ==> p == 0.0
    ensures 0.0 < factor ==> (p < 0.0 <==> cameraX > viewWidth / 2.0)
  {
    -(cameraX - viewWidth / 2.0) * factor
  }

  /** With the camera clamped, a layer never moves right of its start and never
      further left than `factor` times the scrollable width of the world. */
  lemma ParallaxBounds(heroX: real, viewWidth: real, worldWidth: real, factor: real)
    requires viewWidth <= worldWidth && 0.0 <= factor
    ensures var p := ParallaxX(CameraX(heroX, viewWidth, worldWidth), viewWidth, factor);
            -(worldWidth - viewWidth) * factor <= p <= 0.0
  {
    var d := CameraX(heroX, viewWidth, worldWidth) - viewWidth / 2.0;
    assert 0.0 <= d <= worldWidth - viewWidth;
    assert d * factor <= (worldWidth - viewWidth) * factor by {
      assert (worldWidth - viewWidth) * factor - d * factor == (worldWidth - viewWidth - d) * factor;
    }
  }

  /** A layer moves opposite to the camera, by `factor` times the camera's
      own move: the smaller the factor, the farther the layer looks. */
  lemma ParallaxFollowsCamera(c1: real, c2: real, viewWidth: real, factor: real)
    requires 0.0 < factor
    ensures ParallaxX(c1, viewWidth, factor) - ParallaxX(c2, viewWidth, factor) == factor * (c2 - c1)
    ensures c1 < c2 ==> ParallaxX(c2, viewWidth, factor) < ParallaxX(c1, viewWidth, factor)
  {
    assert factor * (c2 - c1) == factor * c2 - factor * c1;
  }
}
