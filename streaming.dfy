/** The enemy placement of a new run and the streaming of further enemies
    ahead of the hero, tracked by the watermark `lastEnemySpawnX`. */
module Streaming {
  import opened Wrappers
  import Patrol

  /** The level is 40 ground segments of width 200. */
  const GroundSegments: int := 40
  const GroundSegmentWidth: real := 200.0
  const GroundHeight: real := 60.0
  const TotalWorldWidth: real := GroundSegments as real * GroundSegmentWidth

  /** A turtle stands 18 above the ground's surface. */
  const TurtleY: real := GroundHeight + 18.0

  /** The x positions of the turtles of a new run, and the watermark they leave. */
  const InitialSpawnPositions: seq<real> :=
    [500.0, 900.0, 1300.0, 1800.0, 2200.0, 2800.0, 3300.0, 3900.0, 4500.0, 5100.0,
     5600.0, 6100.0, 6700.0, 7200.0, 7800.0]
  const InitialWatermark: real := 7800.0

  /** A new enemy is considered once the hero is less than this far behind the watermark. */
  const LookAhead: real := 800.0
  /** The random gap between two streamed enemies lies in [MinGap, MaxGap]. */
  const MinGap: real := 400.0
  const MaxGap: real := 700.0
  /** No enemy is streamed this close to the end of the world or beyond. */
  const EndMargin: real := 100.0

  /** The turtles of a new run: one fresh turtle per fixed position, in
      order; the last one stands at the watermark. */
  function InitialTurtles(): (ts: seq<Patrol.Turtle>)
    ensures |ts| == |InitialSpawnPositions| == 15
    ensures forall i :: 0 <= i < |ts| ==> ts[i] == Patrol.Spawn(InitialSpawnPositions[i], TurtleY)
    ensures Patrol.AllWellFormed(ts)
    ensures forall i, j :: 0 <= i < j < |ts| ==> ts[i].x < ts[j].x
    ensures ts[|ts| - 1].x == InitialWatermark
  {
    seq(|InitialSpawnPositions|, i requires 0 <= i < |InitialSpawnPositions| =>
      Patrol.Spawn(InitialSpawnPositions[i], TurtleY))
  }

  /** The x of the enemy one tick streams, if any: with the hero past
      `watermark - 800`, the candidate `watermark + gap` is taken when it is
      short of `worldWidth - 100`. */
  function SpawnX(heroX: real, watermark: real, gap: real, worldWidth: real): (o: Option<real>)
    requires MinGap <= gap <= MaxGap
    ensures o.Some? <==> heroX > watermark - LookAhead && watermark + gap < worldWidth - EndMargin
    ensures o.Some? ==> watermark + MinGap <= o.value <= watermark + MaxGap
    ensures o.Some? ==> o.value < worldWidth - EndMargin
  {
    if heroX > watermark - LookAhead then
      var newX := watermark + gap;
      if newX < worldWidth - EndMargin then Some(newX) else None
    else None
  }

  /** The watermark after one tick: the new enemy's x, or unchanged. */
  function NextWatermark(heroX: real, watermark: real, gap: real, worldWidth: real): (w: real)
    requires MinGap <= gap <= MaxGap
    ensures w == watermark || w >= watermark + MinGap
    ensures w > watermark <==> SpawnX(heroX, watermark, gap, worldWidth).Some?
  {
    match SpawnX(heroX, watermark, gap, worldWidth)
    case Some(x) => x
    case None => watermark
  }

  /** What the streaming part of one update tick sees: the hero's x and the random gap. */
  datatype StreamInput = StreamInput(heroX: real, gap: real)

  predicate GapsInRange(ticks: seq<StreamInput>) {
    forall k :: 0 <= k < |ticks| ==> MinGap <= ticks[k].gap <= MaxGap
  }

  /** The x positions of the enemies streamed over a run of ticks, in order,
      starting from `watermark`. Each is at least MinGap beyond the previous
      one (the first beyond the watermark) and short of the world's end margin. */
  function Streamed(watermark: real, ticks: seq<StreamInput>, worldWidth: real): (xs: seq<real>)
    requires GapsInRange(ticks)
    ensures forall i :: 0 <= i < |xs| ==> xs[i] < worldWidth - EndMargin
    ensures |xs| > 0 ==> xs[0] >= watermark + MinGap
    ensures forall i :: 0 < i < |xs| ==> xs[i] >= xs[i - 1] + MinGap
    ensures |xs| <= |ticks|
    decreases |ticks|
  {
    if ticks == [] then []
    else
      var t := ticks[0];
      match SpawnX(t.heroX, watermark, t.gap, worldWidth)
      case Some(x) => [x] + Streamed(x, ticks[1..], worldWidth)
      case None => Streamed(watermark, ticks[1..], worldWidth)
  }

  /** The watermark after a run of ticks. */
  function Watermark(watermark: real, ticks: seq<StreamInput>, worldWidth: real): (w: real)
    requires GapsInRange(ticks)
    ensures w >= watermark
    ensures var xs := Streamed(watermark, ticks, worldWidth);
            w == if xs == [] then watermark else xs[|xs| - 1]
    decreases |ticks|
  {
    if ticks == [] then watermark
    else Watermark(NextWatermark(ticks[0].heroX, watermark, ticks[0].gap, worldWidth), ticks[1..], worldWidth)
  }

  /** Once the watermark is within MinGap + EndMargin of the world's end, no
      tick streams anything again, whatever the hero does: a first streamed
      enemy would have to lie both beyond watermark + MinGap and short of the
      end margin (the contract of Streamed). */
  lemma NothingStreamsNearTheEnd(watermark: real, ticks: seq<StreamInput>, worldWidth: real)
    requires GapsInRange(ticks)
    requires watermark + MinGap >= worldWidth - EndMargin
    ensures Streamed(watermark, ticks, worldWidth) == []
    ensures Watermark(watermark, ticks, worldWidth) == watermark
  {
  }

  /** In the shipped level (a world 8000 wide, watermark 7800 after the
      initial placement) streaming never fires: 7800 + 400 is already past 8000 - 100. */
  lemma ShippedLevelNeverStreams(watermark: real, ticks: seq<StreamInput>)
    requires GapsInRange(ticks)
    requires watermark >= InitialWatermark
    ensures Streamed(watermark, ticks, TotalWorldWidth) == []
    ensures Watermark(watermark, ticks, TotalWorldWidth) == watermark
  {
    NothingStreamsNearTheEnd(watermark, ticks, TotalWorldWidth);
  }
}
