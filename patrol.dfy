/** The turtle enemies: their patrol data, the patrol step of the update tick
    and what killing one does to its physics masks. */
module Patrol {
  import C = PhysicsCategory

  /** Half the width of a turtle's patrol range around its spawn point. */
  const PatrolHalfWidth: real := 60.0
  /** A turtle's walking speed. */
  const PatrolSpeed: real := 40.0

  /** A turtle: its position and horizontal velocity (the physics engine's),
      the patrol data the source keeps in the node's user data (direction,
      patrolStart, patrolEnd) and the three masks of its physics body. */
  datatype Turtle = Turtle(
    x: real, y: real, vx: real,
    direction: int, patrolStart: real, patrolEnd: real,
    category: C.Mask, contactMask: C.Mask, collisionMask: C.Mask)

  /** What every turtle keeps: a direction of -1 or 1, a non-empty patrol
      range, and the category of an enemy, or `none` once killed. */
  predicate WellFormed(t: Turtle) {
    && (t.direction == -1 || t.direction == 1)
    && t.patrolStart < t.patrolEnd
    && (t.category == C.Enemy || t.category == C.None)
  }

  /** A turtle still takes part in contacts as an enemy. */
  predicate Alive(t: Turtle) {
    t.category == C.Enemy
  }

  /** A new turtle at (x, y): walking left, patrolling 60 either side of x,
      an enemy that reports contacts with the hero and projectiles and
      collides with ground and platforms. */
  function Spawn(x: real, y: real): (t: Turtle)
    ensures WellFormed(t) && Alive(t)
    ensures t.direction == -1 && t.x == x && t.y == y
    ensures t.patrolStart < t.x < t.patrolEnd
    ensures t.x - t.patrolStart == t.patrolEnd - t.x == PatrolHalfWidth
    ensures t.contactMask == C.Hero | C.Projectile && t.collisionMask == C.Ground | C.Platform
  {
    Turtle(x, y, 0.0, -1, x - PatrolHalfWidth, x + PatrolHalfWidth,
           C.Enemy, C.Hero | C.Projectile, C.Ground | C.Platform)
  }

  /** A killed turtle: all three masks cleared to `none`; position, velocity
      and patrol data are untouched. */
  function Killed(t: Turtle): (r: Turtle)
    ensures !Alive(r)
    ensures r.category == C.None && r.contactMask == C.None && r.collisionMask == C.None
    ensures r.(category := t.category, contactMask := t.contactMask, collisionMask := t.collisionMask) == t
    ensures WellFormed(t) ==> WellFormed(r)
  {
    t.(category := C.None, contactMask := C.None, collisionMask := C.None)
  }

  /** One patrol step: the velocity follows the direction held at the start of
      the step, then the direction turns to 1 at or left of patrolStart when
      walking left, and to -1 at or right of patrolEnd when walking right.
      The position itself is not clamped. */
  function Step(t: Turtle): (r: Turtle)
    requires WellFormed(t)
    ensures WellFormed(r)
    ensures r.vx == t.direction as real * PatrolSpeed
    ensures r.direction != t.direction <==>
              (t.direction == -1 && t.x <= t.patrolStart) || (t.direction == 1 && t.x >= t.patrolEnd)
    ensures t.x <= t.patrolStart ==> r.direction == 1
    ensures t.x >= t.patrolEnd ==> r.direction == -1
    ensures r.(vx := t.vx, direction := t.direction) == t
  {
    var moving := t.(vx := t.direction as real * PatrolSpeed);
    if t.x <= t.patrolStart && t.direction == -1 then moving.(direction := 1)
    else if t.x >= t.patrolEnd && t.direction == 1 then moving.(direction := -1)
    else moving
  }

  predicate AllWellFormed(ts: seq<Turtle>) {
    forall i :: 0 <= i < |ts| ==> WellFormed(ts[i])
  }

  /** The patrol step applied to every turtle; turtles do not influence each other. */
  function StepAll(ts: seq<Turtle>): (rs: seq<Turtle>)
    requires AllWellFormed(ts)
    ensures |rs| == |ts| && AllWellFormed(rs)
    ensures forall i :: 0 <= i < |ts| ==> rs[i] == Step(ts[i])
  {
    seq(|ts|, i requires 0 <= i < |ts| => Step(ts[i]))
  }

  /** A turtle moved by the engine to each of the given x positions in turn,
      with a patrol step after each move. */
  function Walk(t: Turtle, xs: seq<real>): (r: Turtle)
    requires WellFormed(t)
    ensures WellFormed(r)
    ensures r.patrolStart == t.patrolStart && r.patrolEnd == t.patrolEnd
    decreases |xs|
  {
    if xs == [] then t else Walk(Step(t.(x := xs[0])), xs[1..])
  }

  /** A turtle walking right keeps walking right over any number of ticks in
      which the engine leaves it left of patrolEnd: the patrol turns at the
      bounds and nowhere else. */
  lemma {:induction false} KeepsDirectionInside(t: Turtle, xs: seq<real>)
    requires WellFormed(t) && t.direction == 1
    requires forall k :: 0 <= k < |xs| ==> xs[k] < t.patrolEnd
    ensures Walk(t, xs).direction == 1
    decreases |xs|
  {
    if xs != [] {
      var next := Step(t.(x := xs[0]));
      assert next.direction == 1;
      KeepsDirectionInside(next, xs[1..]);
    }
  }
}
