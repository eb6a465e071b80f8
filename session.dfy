/** The rules of a game session as functions on a value of its state: what
    each of the scene's operations does to the lives, the score, the flags,
    the hero, the turtles and the thrown crosses. The scene class in module
    Scene is proved to make exactly these changes in place. */
module Session {
  import opened Wrappers
  import C = PhysicsCategory
  import Contacts
  import Viewport
  import Patrol
  import Streaming

  const MaxLives: int := 3
  /** Points for every enemy killed. */
  const KillReward: int := 100
  /** The hero's horizontal speed while a move button is held. */
  const HeroSpeed: real := 200.0
  /** The factor by which the hero's horizontal velocity decays without input. */
  const Friction: real := 0.85
  const JumpImpulse: real := 480.0
  /** The mass of the hero's physics body: an impulse J changes its velocity by J / 0.5. */
  const HeroMass: real := 0.5
  /** The whip's hitbox sits at the whip's length (60) plus 8 from the hero's centre. */
  const WhipReach: real := 68.0
  /** A cross starts 15 ahead of and 5 above the hero and flies at 350. */
  const CrossOffset: real := 15.0
  const CrossLift: real := 5.0
  const CrossSpeed: real := 350.0
  /** A hit knocks the hero back by an impulse of 80 away from its facing and 120 up. */
  const KnockbackX: real := 80.0
  const KnockbackY: real := 120.0
  /** Below this vertical speed the hero counts as standing. */
  const GroundedSpeed: real := 5.0
  /** Below this height the hero has fallen out of the world. */
  const FallLimit: real := -50.0
  const RespawnY: real := Streaming.GroundHeight + 60.0
  /** Where the hero starts a run: x 150, standing 40 above the ground, at rest. */
  const HeroStart: Body := Body(150.0, Streaming.GroundHeight + 40.0, 0.0, 0.0)

  /** An impulse. */
  datatype Vec = Vec(dx: real, dy: real)

  /** Position and velocity of a physics body. */
  datatype Body = Body(x: real, y: real, vx: real, vy: real)

  /** An impulse applied to the hero: its momentum changes at once by the
      impulse, its position does not. */
  function Push(b: Body, j: Vec): (r: Body)
    ensures (r.vx - b.vx) * HeroMass == j.dx && (r.vy - b.vy) * HeroMass == j.dy
    ensures r.x == b.x && r.y == b.y
  {
    b.(vx := b.vx + j.dx / HeroMass, vy := b.vy + j.dy / HeroMass)
  }

  /** A thrown cross: position and horizontal velocity. */
  datatype Cross = Cross(x: real, y: real, vx: real)

  /** The on-screen buttons. */
  datatype Button = LeftButton | RightButton | JumpButton | AttackButton

  /** A body that can take part in a contact: the hero, a ground segment, the
      turtle or cross at an index, or the hitbox of the active whip. */
  datatype BodyRef = HeroBody | GroundBody | TurtleBody(index: nat) | CrossBody(index: nat) | WhipHitbox

  /** The scene's game state. `whip` is the x of the whip hitbox while a
      swing is on, in the hero's own frame: the hero node's horizontal scale
      (1 facing right, -1 facing left) still mirrors it (see WhipWorldOffset). */
  datatype State = State(
    isOnGround: bool, isGameOver: bool, score: int, lives: int,
    isAttacking: bool, heroFacingRight: bool, isMovingLeft: bool, isMovingRight: bool,
    lastEnemySpawnX: real,
    hero: Body, whip: Option<real>,
    cameraX: real, farLayerX: real, nearLayerX: real,
    turtles: seq<Patrol.Turtle>, crosses: seq<Cross>)

  /** The session invariant: lives in [0, 3] and game over exactly at 0 lives;
      the score a non-negative multiple of 100; a whip hitbox exactly while
      attacking, at the whip's reach in the hero's own frame; the watermark
      never below the one the initial placement leaves; well-formed turtles. */
  predicate Inv(s: State) {
    && 0 <= s.lives <= MaxLives
    && (s.isGameOver <==> s.lives == 0)
    && 0 <= s.score && s.score % KillReward == 0
    && (s.isAttacking <==> s.whip.Some?)
    && (s.whip.Some? ==> s.whip.value == WhipReach)
    && s.lastEnemySpawnX >= Streaming.InitialWatermark
    && Patrol.AllWellFormed(s.turtles)
  }

  function Facing(right: bool): real { if right then 1.0 else -1.0 }

  function Knockback(facingRight: bool): Vec {
    Vec(-Facing(facingRight) * KnockbackX, KnockbackY)
  }

  function Remove<T>(xs: seq<T>, j: nat): (r: seq<T>)
    requires j < |xs|
    ensures |r| == |xs| - 1
    ensures forall k :: 0 <= k < j ==> r[k] == xs[k]
    ensures forall k :: j <= k < |r| ==> r[k] == xs[k + 1]
  {
    xs[..j] + xs[j + 1..]
  }

  /** The state when the scene appears: a full set of lives, no score, the
      hero standing at its start facing right, the fixed turtles placed. */
  function Initial(): (s: State)
    ensures Inv(s)
    ensures s.lives == MaxLives && s.score == 0 && !s.isGameOver
    ensures s.turtles == Streaming.InitialTurtles() && s.lastEnemySpawnX == Streaming.InitialWatermark
  {
    State(true, false, 0, MaxLives, false, true, false, false,
          Streaming.InitialWatermark, HeroStart, None,
          0.0, 0.0, 0.0, Streaming.InitialTurtles(), [])
  }

  // ---------------------------------------------------------------- lives

  /** The hero is hit: nothing while the game is over; otherwise one life
      less, the velocity zeroed before the knock-back impulse, and game over
      exactly when no life is left. */
  function Hit(s: State): (r: State)
    requires Inv(s)
    ensures Inv(r)
    ensures s.isGameOver ==> r == s
    ensures !s.isGameOver ==> r.lives == s.lives - 1 && (r.isGameOver <==> r.lives == 0)
    ensures !s.isGameOver ==>
              r.hero == s.hero.(vx := -Facing(s.heroFacingRight) * KnockbackX / HeroMass, vy := KnockbackY / HeroMass)
    ensures r.(lives := s.lives, isGameOver := s.isGameOver, hero := s.hero) == s
  {
    if s.isGameOver then s
    else
      var lives := s.lives - 1;
      var knocked := s.(lives := lives, hero := Push(s.hero.(vx := 0.0, vy := 0.0), Knockback(s.heroFacingRight)));
      if lives <= 0 then knocked.(isGameOver := true) else knocked
  }

  /** `n` hits in a row. */
  function Hits(s: State, n: nat): (r: State)
    requires Inv(s)
    ensures Inv(r)
  {
    if n == 0 then s else Hit(Hits(s, n - 1))
  }

  /** From a running game, each of the first `lives` hits costs exactly one
      life, and the game is over exactly after the last of them: three hits
      from a fresh run end it on the third. */
  lemma {:induction false} LivesCountDown(s: State, n: nat)
    requires Inv(s) && !s.isGameOver && n <= s.lives
    ensures Hits(s, n).lives == s.lives - n
    ensures Hits(s, n).isGameOver <==> n == s.lives
    ensures Hits(s, n).score == s.score
  {
    if n > 0 {
      LivesCountDown(s, n - 1);
    }
  }

  // ---------------------------------------------------------------- score

  /** Enemy `i` is killed: exactly 100 more points and its masks cleared to
      `none`; nothing else changes. */
  function Kill(s: State, i: nat): (r: State)
    requires Inv(s) && i < |s.turtles|
    ensures Inv(r)
    ensures r.score == s.score + KillReward
    ensures |r.turtles| == |s.turtles| && r.turtles[i] == Patrol.Killed(s.turtles[i])
    ensures !Patrol.Alive(r.turtles[i])
    ensures forall k :: 0 <= k < |s.turtles| && k != i ==> r.turtles[k] == s.turtles[k]
    ensures r.(score := s.score, turtles := s.turtles) == s
  {
    s.(score := s.score + KillReward, turtles := s.turtles[i := Patrol.Killed(s.turtles[i])])
  }

  /** A restart: score 0, three lives, running again, the hero back at its
      start facing right and still, move flags off, the fixed turtles placed
      anew, no crosses, the watermark back at 7800. A whip swing in progress
      is left to finish. */
  function Restart(s: State): (r: State)
    requires Inv(s)
    ensures Inv(r)
    ensures r.score == 0 && r.lives == MaxLives && !r.isGameOver && r.isOnGround
    ensures !r.isMovingLeft && !r.isMovingRight && r.heroFacingRight && r.hero == HeroStart
    ensures r.turtles == Streaming.InitialTurtles() && r.crosses == []
    ensures r.lastEnemySpawnX == Streaming.InitialWatermark
    ensures r.isAttacking == s.isAttacking && r.whip == s.whip
    ensures r.cameraX == s.cameraX && r.farLayerX == s.farLayerX && r.nearLayerX == s.nearLayerX
  {
    s.(score := 0, lives := MaxLives, isGameOver := false, isOnGround := true,
       isMovingLeft := false, isMovingRight := false,
       hero := HeroStart, heroFacingRight := true,
       turtles := Streaming.InitialTurtles(), crosses := [],
       lastEnemySpawnX := Streaming.InitialWatermark)
  }

  // ---------------------------------------------------------------- actions

  /** A jump: only when standing and running; leaves the ground, zeroes the
      vertical velocity and applies an upward impulse of half the jump impulse. */
  function Jump(s: State): (r: State)
    requires Inv(s)
    ensures Inv(r)
    ensures s.isOnGround && !s.isGameOver ==>
              !r.isOnGround && r.hero == s.hero.(vy := JumpImpulse * 0.5 / HeroMass)
    ensures !(s.isOnGround && !s.isGameOver) ==> r == s
    ensures r.(isOnGround := s.isOnGround, hero := s.hero) == s
  {
    if !(s.isOnGround && !s.isGameOver) then s
    else s.(isOnGround := false, hero := Push(s.hero.(vy := 0.0), Vec(0.0, JumpImpulse * 0.5)))
  }

  /** The x of the whip hitbox relative to the hero in the world: the
      offset in the hero's own frame, mirrored by the hero's horizontal scale.
      That scale is set together with `heroFacingRight` whenever either
      changes, so it is always Facing(heroFacingRight). */
  function WhipWorldOffset(s: State): (x: real)
    requires s.whip.Some?
    ensures s.heroFacingRight ==> x == s.whip.value
    ensures !s.heroFacingRight ==> x == -s.whip.value
  {
    Facing(s.heroFacingRight) * s.whip.value
  }

  /** A whip swing as the scene writes it: the hitbox offset is already
      multiplied by the facing direction before the hero's scale mirrors it
      a second time. */
  function WhipAttackAsWritten(s: State): (r: State)
    requires Inv(s)
    ensures s.isAttacking || s.isGameOver ==> r == s
    ensures !s.isAttacking && !s.isGameOver ==>
              r.isAttacking && r.whip == Some(Facing(s.heroFacingRight) * WhipReach)
    ensures r.(isAttacking := s.isAttacking, whip := s.whip) == s
  {
    if s.isAttacking || s.isGameOver then s
    else s.(isAttacking := true, whip := Some(Facing(s.heroFacingRight) * WhipReach))
  }

  /** As written, a new swing's hitbox always lands 68 to the right of the
      hero, whichever way it faces, so for a hero facing left it is behind. */
  lemma WhipAsWrittenStrikesBehind(s: State)
    requires Inv(s) && !s.isAttacking && !s.isGameOver
    ensures WhipWorldOffset(WhipAttackAsWritten(s)) == WhipReach
    ensures !s.heroFacingRight ==> Facing(s.heroFacingRight) * WhipWorldOffset(WhipAttackAsWritten(s)) < 0.0
  {
    assert Facing(s.heroFacingRight) * Facing(s.heroFacingRight) == 1.0;
  }

  /** A whip swing starts unless one is already on or the game is over. The
      hitbox sits at the whip's reach in the hero's own frame, so the hero's
      scale puts it 68 out on the side the hero faces. */
  function WhipAttack(s: State): (r: State)
    requires Inv(s)
    ensures Inv(r)
    ensures s.isAttacking || s.isGameOver ==> r == s
    ensures !s.isAttacking && !s.isGameOver ==>
              r.isAttacking && WhipWorldOffset(r) == Facing(s.heroFacingRight) * WhipReach
    ensures r.(isAttacking := s.isAttacking, whip := s.whip) == s
  {
    if s.isAttacking || s.isGameOver then s
    else s.(isAttacking := true, whip := Some(WhipReach))
  }

  /** The end of a swing: the hitbox goes and attacking is over, whatever
      else happened meanwhile. */
  function FinishWhip(s: State): (r: State)
    requires Inv(s) && s.isAttacking
    ensures Inv(r) && !r.isAttacking && r.whip == None
    ensures r.(isAttacking := s.isAttacking, whip := s.whip) == s
  {
    s.(isAttacking := false, whip := None)
  }

  /** A cross is thrown unless the game is over: it starts 15 ahead of and 5
      above the hero and flies at 350 in the facing direction. */
  function ThrowCross(s: State): (r: State)
    requires Inv(s)
    ensures Inv(r)
    ensures s.isGameOver ==> r == s
    ensures !s.isGameOver ==>
              var d := Facing(s.heroFacingRight);
              r.crosses == s.crosses + [Cross(s.hero.x + d * CrossOffset, s.hero.y + CrossLift, d * CrossSpeed)]
    ensures r.(crosses := s.crosses) == s
  {
    if s.isGameOver then s
    else
      var d := Facing(s.heroFacingRight);
      s.(crosses := s.crosses + [Cross(s.hero.x + d * CrossOffset, s.hero.y + CrossLift, d * CrossSpeed)])
  }

  /** Cross `j` reaches the end of its two-second life and is removed. */
  function ExpireCross(s: State, j: nat): (r: State)
    requires Inv(s) && j < |s.crosses|
    ensures Inv(r)
    ensures r.crosses == Remove(s.crosses, j)
    ensures r.(crosses := s.crosses) == s
  {
    s.(crosses := Remove(s.crosses, j))
  }

  /** A killed turtle's death animation ends and it leaves the scene. */
  function RemoveTurtle(s: State, i: nat): (r: State)
    requires Inv(s) && i < |s.turtles| && !Patrol.Alive(s.turtles[i])
    ensures Inv(r)
    ensures r.turtles == Remove(s.turtles, i)
    ensures r.(turtles := s.turtles) == s
  {
    s.(turtles := Remove(s.turtles, i))
  }

  // ---------------------------------------------------------------- touches

  /** One button pressed while the game runs. Left and right set the move
      flag and the facing; jump jumps; attack swings the whip and also throws
      a cross, so a cross leaves even in the middle of a swing. */
  function Press(s: State, b: Button): (r: State)
    requires Inv(s) && !s.isGameOver
    ensures Inv(r) && !r.isGameOver
    ensures r.lives == s.lives && r.score == s.score && r.turtles == s.turtles
    ensures r.lastEnemySpawnX == s.lastEnemySpawnX
    ensures r.hero.x == s.hero.x && r.hero.y == s.hero.y && r.hero.vx == s.hero.vx
    ensures b == AttackButton ==> r.isAttacking && |r.crosses| == |s.crosses| + 1
    ensures b != AttackButton ==> r.crosses == s.crosses && r.isAttacking == s.isAttacking
    ensures r.crosses[..|s.crosses|] == s.crosses
    ensures b == LeftButton ==> !r.heroFacingRight
    ensures b == RightButton ==> r.heroFacingRight
    ensures b == JumpButton || b == AttackButton ==> r.heroFacingRight == s.heroFacingRight
  {
    match b
    case LeftButton => s.(isMovingLeft := true, heroFacingRight := false)
    case RightButton => s.(isMovingRight := true, heroFacingRight := true)
    case JumpButton => Jump(s)
    case AttackButton => ThrowCross(WhipAttack(s))
  }

  /** The buttons under the touches of one event, pressed in order. */
  function PressAll(s: State, bs: seq<Button>): (r: State)
    requires Inv(s) && !s.isGameOver
    ensures Inv(r) && !r.isGameOver
    ensures r.lives == s.lives && r.score == s.score && r.turtles == s.turtles
    ensures r.lastEnemySpawnX == s.lastEnemySpawnX
    decreases |bs|
  {
    if bs == [] then s
    else Press(PressAll(s, bs[..|bs| - 1]), bs[|bs| - 1])
  }

  /** Pressing several buttons sets a move flag exactly when its button is
      among them, leaves the ground exactly when jump is among them (and the
      hero stood), and starts attacking exactly when attack is among them. */
  lemma {:induction false} PressAllFlags(s: State, bs: seq<Button>)
    requires Inv(s) && !s.isGameOver
    ensures var r := PressAll(s, bs);
            && r.isMovingLeft == (s.isMovingLeft || LeftButton in bs)
            && r.isMovingRight == (s.isMovingRight || RightButton in bs)
            && r.isOnGround == (s.isOnGround && JumpButton !in bs)
            && r.isAttacking == (s.isAttacking || AttackButton in bs)
    decreases |bs|
  {
    if bs != [] {
      var front, last := bs[..|bs| - 1], bs[|bs| - 1];
      assert bs == front + [last];
      PressAllFlags(s, front);
      PressFlags(PressAll(s, front), last);
    }
  }

  /** The flags one press changes: its own move flag, standing for a jump,
      attacking for an attack. */
  lemma PressFlags(s: State, b: Button)
    requires Inv(s) && !s.isGameOver
    ensures var r := Press(s, b);
            && r.isMovingLeft == (s.isMovingLeft || b == LeftButton)
            && r.isMovingRight == (s.isMovingRight || b == RightButton)
            && r.isOnGround == (s.isOnGround && b != JumpButton)
            && r.isAttacking == (s.isAttacking || b == AttackButton)
  {
  }

  /** Every attack press throws one cross, in the middle of a swing too, and
      no earlier cross is disturbed. */
  lemma {:induction false} PressAllCrosses(s: State, bs: seq<Button>)
    requires Inv(s) && !s.isGameOver
    ensures var r := PressAll(s, bs);
            |r.crosses| == |s.crosses| + multiset(bs)[AttackButton] &&
            r.crosses[..|s.crosses|] == s.crosses
    decreases |bs|
  {
    if bs != [] {
      var front := bs[..|bs| - 1];
      assert bs == front + [bs[|bs| - 1]];
      PressAllCrosses(s, front);
      var mid := PressAll(s, front);
      var r := PressAll(s, bs);
      assert r.crosses[..|mid.crosses|] == mid.crosses;
      assert r.crosses[..|s.crosses|] == mid.crosses[..|s.crosses|];
    }
  }

  /** The ring and the label of a button both carry its name, so one touch on
      the label can list the attack button twice: the second swing is
      ignored, but a second cross is thrown. */
  lemma AttackTouchedTwiceThrowsTwo(s: State)
    requires Inv(s) && !s.isGameOver
    ensures var r := PressAll(s, [AttackButton, AttackButton]);
            r.isAttacking && |r.crosses| == |s.crosses| + 2
  {
    PressAllCrosses(s, [AttackButton, AttackButton]);
    PressAllFlags(s, [AttackButton, AttackButton]);
    assert multiset([AttackButton, AttackButton])[AttackButton] == 2;
  }

  /** The hero faces the way of the last left or right button pressed,
      whatever other buttons follow it. */
  lemma {:induction false} PressAllFacing(s: State, bs: seq<Button>, k: nat)
    requires Inv(s) && !s.isGameOver
    requires k < |bs| && (bs[k] == LeftButton || bs[k] == RightButton)
    requires forall m :: k < m < |bs| ==> bs[m] != LeftButton && bs[m] != RightButton
    ensures PressAll(s, bs).heroFacingRight == (bs[k] == RightButton)
    decreases |bs|
  {
    if k < |bs| - 1 {
      var front := bs[..|bs| - 1];
      PressAllFacing(s, front, k);
    }
  }

  /** Without a left or right button, the hero keeps its facing. */
  lemma {:induction false} PressAllKeepsFacing(s: State, bs: seq<Button>)
    requires Inv(s) && !s.isGameOver
    requires LeftButton !in bs && RightButton !in bs
    ensures PressAll(s, bs).heroFacingRight == s.heroFacingRight
    decreases |bs|
  {
    if bs != [] {
      var front := bs[..|bs| - 1];
      assert forall m :: 0 <= m < |front| ==> front[m] == bs[m];
      PressAllKeepsFacing(s, front);
    }
  }

  /** A touch event: any touch while the game is over restarts it (and the
      touched buttons are ignored); otherwise the touched buttons are pressed. */
  function TouchesBegan(s: State, bs: seq<Button>): (r: State)
    requires Inv(s)
    ensures Inv(r) && !r.isGameOver
    ensures s.isGameOver ==> r == Restart(s)
    ensures !s.isGameOver ==> r.lives == s.lives && r.score == s.score
  {
    if s.isGameOver then Restart(s) else PressAll(s, bs)
  }

  /** One button released: left and right clear their move flag; the other
      buttons do nothing on release. */
  function Release(s: State, b: Button): (r: State)
    ensures r.isMovingLeft == (s.isMovingLeft && b != LeftButton)
    ensures r.isMovingRight == (s.isMovingRight && b != RightButton)
    ensures r.(isMovingLeft := s.isMovingLeft, isMovingRight := s.isMovingRight) == s
  {
    match b
    case LeftButton => s.(isMovingLeft := false)
    case RightButton => s.(isMovingRight := false)
    case _ => s
  }

  /** The buttons under the touches that ended, released in order; this is
      honoured whether or not the game is over. */
  function ReleaseAll(s: State, bs: seq<Button>): (r: State)
    ensures r.isMovingLeft == (s.isMovingLeft && LeftButton !in bs)
    ensures r.isMovingRight == (s.isMovingRight && RightButton !in bs)
    ensures r.(isMovingLeft := s.isMovingLeft, isMovingRight := s.isMovingRight) == s
    decreases |bs|
  {
    if bs == [] then s
    else
      var front := bs[..|bs| - 1];
      assert bs == front + [bs[|bs| - 1]];
      Release(ReleaseAll(s, front), bs[|bs| - 1])
  }

  /** Cancelled touches stop all movement. */
  function TouchesCancelled(s: State): (r: State)
    ensures !r.isMovingLeft && !r.isMovingRight
    ensures r.(isMovingLeft := s.isMovingLeft, isMovingRight := s.isMovingRight) == s
  {
    s.(isMovingLeft := false, isMovingRight := false)
  }

  // ---------------------------------------------------------------- contacts

  /** The body exists in the scene. */
  predicate Present(s: State, b: BodyRef) {
    match b
    case TurtleBody(i) => i < |s.turtles|
    case CrossBody(j) => j < |s.crosses|
    case WhipHitbox => s.whip.Some?
    case _ => true
  }

  /** The category mask of a body: a turtle's is `enemy` until it is killed,
      `none` after; crosses and the whip hitbox are projectiles. */
  function Category(s: State, b: BodyRef): (c: C.Mask)
    requires Inv(s) && Present(s, b)
    ensures C.IsCategory(c)
    ensures c == C.Enemy ==> b.TurtleBody? && Patrol.Alive(s.turtles[b.index])
    ensures c == C.Projectile <==> b.CrossBody? || b.WhipHitbox?
    ensures c == C.Hero <==> b.HeroBody?
  {
    match b
    case HeroBody => C.Hero
    case GroundBody => C.Ground
    case TurtleBody(i) => s.turtles[i].category
    case CrossBody(_) => C.Projectile
    case WhipHitbox => C.Projectile
  }

  /** A cross or the whip hitbox meets a live enemy: the enemy is killed and a
      cross is removed; the whip hitbox stays. */
  function ProjectileHit(s: State, enemy: nat, projectile: BodyRef): (r: State)
    requires Inv(s) && enemy < |s.turtles| && Present(s, projectile)
    ensures Inv(r)
    ensures r.score == s.score + KillReward && r.lives == s.lives
    ensures r.turtles == s.turtles[enemy := Patrol.Killed(s.turtles[enemy])]
    ensures r.crosses == if projectile.CrossBody? then Remove(s.crosses, projectile.index) else s.crosses
    ensures r.(score := s.score, turtles := s.turtles, crosses := s.crosses) == s
  {
    var killed := Kill(s, enemy);
    if projectile.CrossBody? then killed.(crosses := Remove(killed.crosses, projectile.index))
    else killed
  }

  /** The hero meets a live enemy: a stomp (see Contacts.IsStomp) kills it,
      zeroes the hero's vertical velocity and applies an upward impulse of 0.3
      times the jump impulse; anything else, a still hero included, is a hit. */
  function HeroTouch(s: State, enemy: nat): (r: State)
    requires Inv(s) && enemy < |s.turtles|
    ensures Inv(r) && |r.turtles| == |s.turtles|
    ensures Contacts.IsStomp(s.hero.y, s.turtles[enemy].y, s.hero.vy) ==>
              r.score == s.score + KillReward && r.lives == s.lives &&
              r.turtles[enemy] == Patrol.Killed(s.turtles[enemy]) &&
              r.hero == s.hero.(vy := JumpImpulse * 0.3 / HeroMass)
    ensures Contacts.IsStomp(s.hero.y, s.turtles[enemy].y, s.hero.vy) ==>
              r == Kill(s, enemy).(hero := s.hero.(vy := JumpImpulse * 0.3 / HeroMass))
    ensures !Contacts.IsStomp(s.hero.y, s.turtles[enemy].y, s.hero.vy) ==> r == Hit(s)
  {
    if Contacts.IsStomp(s.hero.y, s.turtles[enemy].y, s.hero.vy) then
      var killed := Kill(s, enemy);
      killed.(hero := Push(killed.hero.(vy := 0.0), Vec(0.0, JumpImpulse * 0.3)))
    else Hit(s)
  }

  /** The contact callback for bodies `a` and `b`. The union of their
      categories selects the rule; the three guards are checked in turn, and
      at most one of them holds. Any other union changes nothing. */
  function Contact(s: State, a: BodyRef, b: BodyRef): (r: State)
    requires Inv(s) && Present(s, a) && Present(s, b)
    ensures Inv(r)
    ensures |r.turtles| == |s.turtles| && r.lives <= s.lives
  {
    var catA := Category(s, a);
    var catB := Category(s, b);
    var collision := Contacts.Collision(catA, catB);
    Contacts.UnionIdentifiesPair(catA, catB);
    var landed :=
      if collision == C.Hero | C.Ground || collision == C.Hero | C.Platform then s.(isOnGround := true) else s;
    var struck :=
      if collision == C.Projectile | C.Enemy then
        var enemy := if catA == C.Enemy then a else b;
        var projectile := if catA == C.Projectile then a else b;
        ProjectileHit(landed, enemy.index, projectile)
      else landed;
    if collision == C.Hero | C.Enemy then
      var enemy := if catA == C.Enemy then a else b;
      HeroTouch(struck, enemy.index)
    else struck
  }

  /** What each rule does: a union no rule matches changes nothing; a landing
      only sets standing; a projectile hit scores 100 and costs no life; a
      hero/enemy contact is a stomp that scores 100 or else a hit. */
  lemma ContactRules(s: State, a: BodyRef, b: BodyRef)
    requires Inv(s) && Present(s, a) && Present(s, b)
    ensures var r := Contact(s, a, b);
            var fired := Contacts.Fired(Contacts.Collision(Category(s, a), Category(s, b)));
            && (fired == {} ==> r == s)
            && (Contacts.Land in fired ==> r == s.(isOnGround := true))
            && (Contacts.ProjectileHit in fired ==> r.score == s.score + KillReward && r.lives == s.lives)
            && (Contacts.HeroEnemy in fired ==> r.score == s.score + KillReward || r == Hit(s))
  {
    Contacts.UnionIdentifiesPair(Category(s, a), Category(s, b));
  }

  /** The callback picks the right bodies and hands them to the rule that
      fired: the body whose category is `enemy` goes to ProjectileHit,
      together with the projectile, or to HeroTouch. */
  lemma ContactDispatch(s: State, a: BodyRef, b: BodyRef)
    requires Inv(s) && Present(s, a) && Present(s, b)
    ensures var r := Contact(s, a, b);
            var fired := Contacts.Fired(Contacts.Collision(Category(s, a), Category(s, b)));
            var e := if Category(s, a) == C.Enemy then a else b;
            var p := if Category(s, a) == C.Projectile then a else b;
            && (Contacts.ProjectileHit in fired ==>
                  Category(s, e) == C.Enemy && Category(s, p) == C.Projectile &&
                  r == ProjectileHit(s, e.index, p))
            && (Contacts.HeroEnemy in fired ==>
                  Category(s, e) == C.Enemy && r == HeroTouch(s, e.index))
  {
    Contacts.UnionIdentifiesPair(Category(s, a), Category(s, b));
  }

  /** A contact kills at most one turtle, only a live one, and scores 100
      for it; a killed turtle is never touched again. */
  lemma ContactKillsOnlyTheLiving(s: State, a: BodyRef, b: BodyRef)
    requires Inv(s) && Present(s, a) && Present(s, b)
    ensures var r := Contact(s, a, b);
            && (forall i :: 0 <= i < |s.turtles| && !Patrol.Alive(s.turtles[i]) ==> r.turtles[i] == s.turtles[i])
            && (r.score == s.score ||
                (r.score == s.score + KillReward &&
                 exists i :: 0 <= i < |s.turtles| && Patrol.Alive(s.turtles[i]) &&
                   r.turtles[i] == Patrol.Killed(s.turtles[i])))
  {
    Contacts.UnionIdentifiesPair(Category(s, a), Category(s, b));
  }

  /** A contact does not depend on which body the engine reports first. */
  lemma ContactIsSymmetric(s: State, a: BodyRef, b: BodyRef)
    requires Inv(s) && Present(s, a) && Present(s, b)
    ensures Contact(s, a, b) == Contact(s, b, a)
  {
    Contacts.UnionIdentifiesPair(Category(s, a), Category(s, b));
  }

  /** A contact with a killed turtle changes nothing: it can neither be scored
      again nor hurt the hero. */
  lemma KilledTurtleIsInert(s: State, i: nat, other: BodyRef)
    requires Inv(s) && i < |s.turtles| && !Patrol.Alive(s.turtles[i]) && Present(s, other)
    ensures Contact(s, TurtleBody(i), other) == s
    ensures Contact(s, other, TurtleBody(i)) == s
  {
    Contacts.DeadBodyFiresNothing(Category(s, other));
  }

  // ---------------------------------------------------------------- update tick

  /** The first phase of a frame: the hero's horizontal velocity follows the
      move flags (left wins over right, and without either it decays by
      0.85); its x is clamped into the world; a vertical speed under 5 counts
      as standing; the camera follows the hero within the world and the two
      parallax layers follow the camera. */
  function Steer(s: State, viewWidth: real): (r: State)
    requires Inv(s)
    ensures Inv(r)
    ensures r.hero.vx == (if s.isMovingLeft then -HeroSpeed
                          else if s.isMovingRight then HeroSpeed
                          else s.hero.vx * Friction)
    ensures r.hero.x == Viewport.ClampHeroX(s.hero.x, Streaming.TotalWorldWidth)
    ensures r.hero.y == s.hero.y && r.hero.vy == s.hero.vy
    ensures r.isOnGround <==> s.isOnGround || -GroundedSpeed < s.hero.vy < GroundedSpeed
    ensures r.cameraX == Viewport.CameraX(r.hero.x, viewWidth, Streaming.TotalWorldWidth)
    ensures r.farLayerX == Viewport.ParallaxX(r.cameraX, viewWidth, Viewport.FarFactor)
    ensures r.nearLayerX == Viewport.ParallaxX(r.cameraX, viewWidth, Viewport.NearFactor)
    ensures r.(hero := s.hero, isOnGround := s.isOnGround, cameraX := s.cameraX,
               farLayerX := s.farLayerX, nearLayerX := s.nearLayerX) == s
  {
    var vx := if s.isMovingLeft then -HeroSpeed
              else if s.isMovingRight then HeroSpeed
              else s.hero.vx * Friction;
    var x := Viewport.ClampHeroX(s.hero.x, Streaming.TotalWorldWidth);
    var cam := Viewport.CameraX(x, viewWidth, Streaming.TotalWorldWidth);
    s.(hero := s.hero.(x := x, vx := vx),
       isOnGround := s.isOnGround || (-GroundedSpeed < s.hero.vy < GroundedSpeed),
       cameraX := cam,
       farLayerX := Viewport.ParallaxX(cam, viewWidth, Viewport.FarFactor),
       nearLayerX := Viewport.ParallaxX(cam, viewWidth, Viewport.NearFactor))
  }

  /** The patrol phase: every turtle, live or killed, takes its patrol step. */
  function PatrolAll(s: State): (r: State)
    requires Inv(s)
    ensures Inv(r)
    ensures r.turtles == Patrol.StepAll(s.turtles)
    ensures r.(turtles := s.turtles) == s
  {
    s.(turtles := Patrol.StepAll(s.turtles))
  }

  /** The streaming phase: a fresh turtle at the x Streaming.SpawnX picks,
      if any, appended to the turtles, and the watermark moved to it. In any
      state the invariant allows, nothing is streamed (StreamingIsIdleInPlay). */
  function StreamEnemy(s: State, gap: real): (r: State)
    requires Inv(s) && Streaming.MinGap <= gap <= Streaming.MaxGap
    ensures Inv(r)
    ensures r.lastEnemySpawnX == Streaming.NextWatermark(s.hero.x, s.lastEnemySpawnX, gap, Streaming.TotalWorldWidth)
    ensures |r.turtles| == |s.turtles| + (if r.lastEnemySpawnX > s.lastEnemySpawnX then 1 else 0)
    ensures r.turtles[..|s.turtles|] == s.turtles
    ensures r.lastEnemySpawnX > s.lastEnemySpawnX ==>
              r.turtles[|s.turtles|] == Patrol.Spawn(r.lastEnemySpawnX, Streaming.TurtleY)
    ensures r.(turtles := s.turtles, lastEnemySpawnX := s.lastEnemySpawnX) == s
  {
    match Streaming.SpawnX(s.hero.x, s.lastEnemySpawnX, gap, Streaming.TotalWorldWidth)
    case Some(newX) =>
      s.(turtles := s.turtles + [Patrol.Spawn(newX, Streaming.TurtleY)], lastEnemySpawnX := newX)
    case None => s
  }

  /** With the watermark at 7800 or beyond, as the invariant keeps it, the
      streaming phase of the shipped 8000-wide level never adds a turtle. */
  lemma StreamingIsIdleInPlay(s: State, gap: real)
    requires Inv(s) && Streaming.MinGap <= gap <= Streaming.MaxGap
    ensures StreamEnemy(s, gap) == s
  {
    Streaming.ShippedLevelNeverStreams(s.lastEnemySpawnX, [Streaming.StreamInput(s.hero.x, gap)]);
  }

  /** The last phase of a frame: a hero below -50 is hit and, if the game
      goes on, put back at height 120 at rest where it fell. */
  function FallCheck(s: State): (r: State)
    requires Inv(s)
    ensures Inv(r)
    ensures s.hero.y >= FallLimit ==> r == s
    ensures s.hero.y < FallLimit && r.isGameOver ==> r == Hit(s)
    ensures s.hero.y < FallLimit && !r.isGameOver ==>
              r == Hit(s).(hero := s.hero.(y := RespawnY, vx := 0.0, vy := 0.0))
  {
    if s.hero.y < FallLimit then
      var hit := Hit(s);
      if !hit.isGameOver then hit.(hero := hit.hero.(y := RespawnY, vx := 0.0, vy := 0.0)) else hit
    else s
  }

  /** One frame: nothing while the game is over; otherwise the four phases
      in order. */
  function Tick(s: State, gap: real, viewWidth: real): (r: State)
    requires Inv(s) && Streaming.MinGap <= gap <= Streaming.MaxGap
    ensures Inv(r)
    ensures s.isGameOver ==> r == s
    ensures !s.isGameOver ==>
              Viewport.HeroMargin <= r.hero.x <= Streaming.TotalWorldWidth - Viewport.HeroMargin
    ensures !s.isGameOver && viewWidth <= Streaming.TotalWorldWidth ==>
              viewWidth / 2.0 <= r.cameraX <= Streaming.TotalWorldWidth - viewWidth / 2.0
    ensures !s.isGameOver ==>
              r.turtles == Patrol.StepAll(s.turtles) && r.lastEnemySpawnX == s.lastEnemySpawnX
    ensures r.score == s.score && r.crosses == s.crosses
    ensures !s.isGameOver ==> r.lives == if s.hero.y < FallLimit then s.lives - 1 else s.lives
    ensures !s.isGameOver && s.hero.y >= FallLimit ==>
              r.hero.vx == (if s.isMovingLeft then -HeroSpeed
                            else if s.isMovingRight then HeroSpeed
                            else s.hero.vx * Friction)
    ensures !s.isGameOver && s.hero.y < FallLimit && !r.isGameOver ==>
              r.hero.y == RespawnY && r.hero.vx == 0.0 && r.hero.vy == 0.0
  {
    if s.isGameOver then s
    else
      var patrolled := PatrolAll(Steer(s, viewWidth));
      StreamingIsIdleInPlay(patrolled, gap);
      FallCheck(StreamEnemy(patrolled, gap))
  }

  /** A jump takes effect at once: in the frame that follows it, the hero
      rises at 480 and so does not count as standing, so a second jump in
      that frame does nothing. */
  lemma JumpLeavesGroundForTheFrame(s: State, gap: real, viewWidth: real)
    requires Inv(s) && s.isOnGround && !s.isGameOver && s.hero.y >= FallLimit
    requires Streaming.MinGap <= gap <= Streaming.MaxGap
    ensures !Tick(Jump(s), gap, viewWidth).isOnGround
    ensures Jump(Tick(Jump(s), gap, viewWidth)) == Tick(Jump(s), gap, viewWidth)
  {
    var j := Jump(s);
    var steered := Steer(j, viewWidth);
    var patrolled := PatrolAll(steered);
    StreamingIsIdleInPlay(patrolled, gap);
  }

  /** The ground check needs no landing: a hero in the air whose vertical
      speed is below 5, as at the top of its arc, counts as standing after
      the next steering phase, and a jump from there takes effect. */
  lemma ApexCountsAsStanding(s: State, viewWidth: real)
    requires Inv(s) && !s.isGameOver && !s.isOnGround
    requires -GroundedSpeed < s.hero.vy < GroundedSpeed
    ensures Steer(s, viewWidth).isOnGround
    ensures Jump(Steer(s, viewWidth)).hero.vy == JumpImpulse * 0.5 / HeroMass
  {
  }

  /** What the physics engine does between two callbacks, which the scene
      only observes: it moves the hero, and moves and slows the turtles and
      the crosses. `turtleAt` gives each turtle's new x, y and horizontal
      velocity, `crossAt` each cross's new x and horizontal velocity. The
      masks and patrol data of the turtles are the scene's and stay. */
  function Simulate(s: State, hero: Body, turtleAt: seq<(real, real, real)>, crossAt: seq<(real, real)>): (r: State)
    requires Inv(s) && |turtleAt| == |s.turtles| && |crossAt| == |s.crosses|
    ensures Inv(r)
    ensures r.hero == hero
    ensures |r.turtles| == |s.turtles| && |r.crosses| == |s.crosses|
    ensures forall i :: 0 <= i < |s.turtles| ==>
              r.turtles[i].x == turtleAt[i].0 && r.turtles[i].y == turtleAt[i].1 && r.turtles[i].vx == turtleAt[i].2 &&
              r.turtles[i].(x := s.turtles[i].x, y := s.turtles[i].y, vx := s.turtles[i].vx) == s.turtles[i]
    ensures forall j :: 0 <= j < |s.crosses| ==>
              r.crosses[j] == s.crosses[j].(x := crossAt[j].0, vx := crossAt[j].1)
    ensures r.(hero := s.hero, turtles := s.turtles, crosses := s.crosses) == s
  {
    s.(hero := hero,
       turtles := seq(|s.turtles|, i requires 0 <= i < |s.turtles| =>
                    s.turtles[i].(x := turtleAt[i].0, y := turtleAt[i].1, vx := turtleAt[i].2)),
       crosses := seq(|s.crosses|, j requires 0 <= j < |s.crosses| => s.crosses[j].(x := crossAt[j].0, vx := crossAt[j].1)))
  }
}
