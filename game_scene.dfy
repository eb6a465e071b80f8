/** The scene object: the game state lives in its fields and every operation
    updates them in place. Each method is proved to leave the fields exactly
    as the matching function of module Session describes, so the properties
    proved there hold of the object. */
module Scene {
  import opened Wrappers
  import C = PhysicsCategory
  import Contacts
  import Viewport
  import Patrol
  import Streaming
  import Session

  class GameScene {
    /** The width of the scene's view, fixed when the scene is presented. */
    const viewWidth: real

    var isOnGround: bool
    var isGameOver: bool
    var score: int
    var lives: int
    var isAttacking: bool
    var heroFacingRight: bool
    var isMovingLeft: bool
    var isMovingRight: bool
    var lastEnemySpawnX: real
    var hero: Session.Body
    var whip: Option<real>
    var cameraX: real
    var farLayerX: real
    var nearLayerX: real
    var turtles: seq<Patrol.Turtle>
    var crosses: seq<Session.Cross>

    /** The fields as one value. */
    function Snapshot(): Session.State
      reads this
    {
      Session.State(isOnGround, isGameOver, score, lives, isAttacking, heroFacingRight,
                    isMovingLeft, isMovingRight, lastEnemySpawnX, hero, whip,
                    cameraX, farLayerX, nearLayerX, turtles, crosses)
    }

    ghost predicate Valid()
      reads this
    {
      Session.Inv(Snapshot())
    }

    /** The scene is presented: ground laid, hero placed, the fixed turtles spawned. */
    constructor (viewWidth: real)
      ensures this.viewWidth == viewWidth
      ensures Snapshot() == Session.Initial() && Valid()
    {
      this.viewWidth := viewWidth;
      isOnGround, isGameOver, score, lives := true, false, 0, Session.MaxLives;
      isAttacking, heroFacingRight, isMovingLeft, isMovingRight := false, true, false, false;
      hero := Session.HeroStart;
      whip := None;
      cameraX, farLayerX, nearLayerX := 0.0, 0.0, 0.0;
      turtles, crosses := [], [];
      new;
      SpawnInitialEnemies();
    }

    /** The fixed turtles, one per position in order, and the watermark they leave. */
    method SpawnInitialEnemies()
      modifies this`turtles, this`lastEnemySpawnX
      ensures turtles == old(turtles) + Streaming.InitialTurtles()
      ensures lastEnemySpawnX == Streaming.InitialWatermark
    {
      var positions := Streaming.InitialSpawnPositions;
      var k := 0;
      while k < |positions|
        invariant 0 <= k <= |positions|
        invariant turtles == old(turtles) + Streaming.InitialTurtles()[..k]
      {
        assert Streaming.InitialTurtles()[..k + 1] == Streaming.InitialTurtles()[..k] + [Streaming.InitialTurtles()[k]];
        turtles := turtles + [Patrol.Spawn(positions[k], Streaming.TurtleY)];
        k := k + 1;
      }
      assert Streaming.InitialTurtles()[..k] == Streaming.InitialTurtles();
      lastEnemySpawnX := Streaming.InitialWatermark;
    }

    // ------------------------------------------------------------ lives and score

    method GameOver()
      modifies this`isGameOver
      ensures isGameOver
    {
      isGameOver := true;
    }

    method HeroHit()
      requires Valid()
      modifies this
      ensures Snapshot() == Session.Hit(old(Snapshot())) && Valid()
    {
      if isGameOver {
        return;
      }
      lives := lives - 1;
      var knockbackDir := if heroFacingRight then -1.0 else 1.0;
      hero := hero.(vx := 0.0, vy := 0.0);
      hero := Session.Push(hero, Session.Vec(knockbackDir * Session.KnockbackX, Session.KnockbackY));
      if lives <= 0 {
        GameOver();
      }
    }

    method KillEnemy(i: nat)
      requires Valid() && i < |turtles|
      modifies this
      ensures Snapshot() == Session.Kill(old(Snapshot()), i) && Valid()
    {
      score := score + Session.KillReward;
      var t := turtles[i];
      turtles := turtles[i := t.(category := C.None, contactMask := C.None, collisionMask := C.None)];
    }

    method RestartGame()
      requires Valid()
      modifies this
      ensures Snapshot() == Session.Restart(old(Snapshot())) && Valid()
    {
      score := 0;
      lives := Session.MaxLives;
      isGameOver := false;
      isOnGround := true;
      isMovingLeft := false;
      isMovingRight := false;
      hero := Session.HeroStart;
      heroFacingRight := true;
      turtles := [];
      crosses := [];
      SpawnInitialEnemies();
      assert turtles == Streaming.InitialTurtles();
    }

    // ------------------------------------------------------------ actions

    method Jump()
      requires Valid()
      modifies this
      ensures Snapshot() == Session.Jump(old(Snapshot())) && Valid()
    {
      if !(isOnGround && !isGameOver) {
        return;
      }
      isOnGround := false;
      hero := hero.(vy := 0.0);
      hero := Session.Push(hero, Session.Vec(0.0, Session.JumpImpulse * 0.5));
    }

    method PerformWhipAttack()
      requires Valid()
      modifies this
      ensures Snapshot() == Session.WhipAttack(old(Snapshot())) && Valid()
    {
      if isAttacking || isGameOver {
        return;
      }
      isAttacking := true;
      // The hitbox hangs from the hero, so its offset is in the hero's own
      // frame and the hero's horizontal scale turns it to the facing side.
      whip := Some(Session.WhipReach);
    }

    /** The completion block of the swing. */
    method FinishWhip()
      requires Valid() && isAttacking
      modifies this
      ensures Snapshot() == Session.FinishWhip(old(Snapshot())) && Valid()
    {
      whip := None;
      isAttacking := false;
    }

    method ThrowCross()
      requires Valid()
      modifies this
      ensures Snapshot() == Session.ThrowCross(old(Snapshot())) && Valid()
    {
      if isGameOver {
        return;
      }
      var direction := if heroFacingRight then 1.0 else -1.0;
      crosses := crosses + [Session.Cross(hero.x + direction * Session.CrossOffset,
                                          hero.y + Session.CrossLift,
                                          direction * Session.CrossSpeed)];
    }

    /** The end of cross `j`'s two-second life. */
    method ExpireCross(j: nat)
      requires Valid() && j < |crosses|
      modifies this
      ensures Snapshot() == Session.ExpireCross(old(Snapshot()), j) && Valid()
    {
      crosses := crosses[..j] + crosses[j + 1..];
    }

    /** The end of killed turtle `i`'s death animation. */
    method RemoveTurtle(i: nat)
      requires Valid() && i < |turtles| && !Patrol.Alive(turtles[i])
      modifies this
      ensures Snapshot() == Session.RemoveTurtle(old(Snapshot()), i) && Valid()
    {
      turtles := turtles[..i] + turtles[i + 1..];
    }

    // ------------------------------------------------------------ touches

    method Press(b: Session.Button)
      requires Valid() && !isGameOver
      modifies this
      ensures Snapshot() == Session.Press(old(Snapshot()), b) && Valid()
    {
      match b
      case LeftButton =>
        isMovingLeft := true;
        heroFacingRight := false;
      case RightButton =>
        isMovingRight := true;
        heroFacingRight := true;
      case JumpButton =>
        Jump();
      case AttackButton =>
        PerformWhipAttack();
        ThrowCross();
    }

    method TouchesBegan(buttons: seq<Session.Button>)
      requires Valid()
      modifies this
      ensures Snapshot() == Session.TouchesBegan(old(Snapshot()), buttons) && Valid()
    {
      if isGameOver {
        RestartGame();
        return;
      }
      var k := 0;
      while k < |buttons|
        invariant 0 <= k <= |buttons|
        invariant Valid() && !isGameOver
        invariant Snapshot() == Session.PressAll(old(Snapshot()), buttons[..k])
      {
        assert buttons[..k + 1][..k] == buttons[..k];
        Press(buttons[k]);
        k := k + 1;
      }
      assert buttons[..k] == buttons;
    }

    method Release(b: Session.Button)
      requires Valid()
      modifies this
      ensures Snapshot() == Session.Release(old(Snapshot()), b) && Valid()
    {
      match b
      case LeftButton =>
        isMovingLeft := false;
      case RightButton =>
        isMovingRight := false;
      case _ =>
    }

    method TouchesEnded(buttons: seq<Session.Button>)
      requires Valid()
      modifies this
      ensures Snapshot() == Session.ReleaseAll(old(Snapshot()), buttons) && Valid()
    {
      var k := 0;
      while k < |buttons|
        invariant 0 <= k <= |buttons|
        invariant Snapshot() == Session.ReleaseAll(old(Snapshot()), buttons[..k])
      {
        assert buttons[..k + 1][..k] == buttons[..k];
        Release(buttons[k]);
        k := k + 1;
      }
      assert buttons[..k] == buttons;
    }

    method TouchesCancelled()
      requires Valid()
      modifies this
      ensures Snapshot() == Session.TouchesCancelled(old(Snapshot())) && Valid()
    {
      isMovingLeft := false;
      isMovingRight := false;
    }

    // ------------------------------------------------------------ contacts

    /** A cross or the whip hitbox meets live enemy `enemy`: the enemy is
        killed and a cross (not the whip hitbox) is removed. */
    method StrikeEnemy(enemy: nat, projectile: Session.BodyRef)
      requires Valid() && enemy < |turtles| && Session.Present(Snapshot(), projectile)
      modifies this
      ensures Snapshot() == Session.ProjectileHit(old(Snapshot()), enemy, projectile) && Valid()
    {
      KillEnemy(enemy);
      if projectile.CrossBody? {
        crosses := crosses[..projectile.index] + crosses[projectile.index + 1..];
      }
    }

    /** The hero meets live enemy `enemy`: a stomp or a hit. */
    method TouchEnemy(enemy: nat)
      requires Valid() && enemy < |turtles|
      modifies this
      ensures Snapshot() == Session.HeroTouch(old(Snapshot()), enemy) && Valid()
    {
      if Contacts.IsStomp(hero.y, turtles[enemy].y, hero.vy) {
        KillEnemy(enemy);
        hero := hero.(vy := 0.0);
        hero := Session.Push(hero, Session.Vec(0.0, Session.JumpImpulse * 0.3));
      } else {
        HeroHit();
      }
    }

    /** The contact callback for two bodies the engine found touching. */
    method DidBegin(a: Session.BodyRef, b: Session.BodyRef)
      requires Valid() && Session.Present(Snapshot(), a) && Session.Present(Snapshot(), b)
      modifies this
      ensures Snapshot() == Session.Contact(old(Snapshot()), a, b) && Valid()
    {
      var catA := Session.Category(Snapshot(), a);
      var catB := Session.Category(Snapshot(), b);
      var collision := Contacts.Collision(catA, catB);
      Contacts.UnionIdentifiesPair(catA, catB);

      if collision == C.Hero | C.Ground || collision == C.Hero | C.Platform {
        isOnGround := true;
      }

      if collision == C.Projectile | C.Enemy {
        var enemy := if catA == C.Enemy then a else b;
        var projectile := if catA == C.Projectile then a else b;
        StrikeEnemy(enemy.index, projectile);
      }

      if collision == C.Hero | C.Enemy {
        var enemy := if catA == C.Enemy then a else b;
        TouchEnemy(enemy.index);
      }
    }

    // ------------------------------------------------------------ update tick

    /** Velocity from the move flags, the clamp, the ground check, the camera
        and the parallax layers. */
    method Steer()
      requires Valid()
      modifies this
      ensures Snapshot() == Session.Steer(old(Snapshot()), viewWidth) && Valid()
    {
      var vx := hero.vx * Session.Friction;
      if isMovingLeft {
        vx := -Session.HeroSpeed;
      } else if isMovingRight {
        vx := Session.HeroSpeed;
      }

      var minX := Viewport.HeroMargin;
      var maxX := Streaming.TotalWorldWidth - Viewport.HeroMargin;
      var x := Viewport.Max(minX, Viewport.Min(maxX, hero.x));

      if -Session.GroundedSpeed < hero.vy < Session.GroundedSpeed {
        isOnGround := true;
      }

      var camera := Viewport.Max(viewWidth / 2.0, Viewport.Min(Streaming.TotalWorldWidth - viewWidth / 2.0, x));
      var cameraOffsetX := camera - viewWidth / 2.0;
      hero, cameraX := hero.(x := x, vx := vx), camera;
      farLayerX := -cameraOffsetX * Viewport.FarFactor;
      nearLayerX := -cameraOffsetX * Viewport.NearFactor;
    }

    /** Every turtle, in order, takes its patrol step in place. */
    method PatrolTurtles()
      requires Valid()
      modifies this`turtles
      ensures Snapshot() == Session.PatrolAll(old(Snapshot())) && Valid()
    {
      var k := 0;
      while k < |turtles|
        invariant 0 <= k <= |turtles| == |old(turtles)|
        invariant forall m :: 0 <= m < k ==> turtles[m] == Patrol.Step(old(turtles)[m])
        invariant forall m :: k <= m < |turtles| ==> turtles[m] == old(turtles)[m]
      {
        var t := turtles[k];
        var dir := t.direction;
        t := t.(vx := dir as real * Patrol.PatrolSpeed);
        if t.x <= t.patrolStart && dir == -1 {
          t := t.(direction := 1);
        } else if t.x >= t.patrolEnd && dir == 1 {
          t := t.(direction := -1);
        }
        turtles := turtles[k := t];
        k := k + 1;
      }
      assert turtles == Patrol.StepAll(old(turtles));
    }

    /** A new enemy ahead of the hero once it comes within 800 of the
        watermark, unless the random draw would place it too near the end. */
    method StreamEnemies(gap: real)
      requires Valid() && Streaming.MinGap <= gap <= Streaming.MaxGap
      modifies this
      ensures Snapshot() == Session.StreamEnemy(old(Snapshot()), gap) && Valid()
    {
      if hero.x > lastEnemySpawnX - Streaming.LookAhead {
        var newX := lastEnemySpawnX + gap;
        if newX < Streaming.TotalWorldWidth - Streaming.EndMargin {
          turtles := turtles + [Patrol.Spawn(newX, Streaming.TurtleY)];
          lastEnemySpawnX := newX;
        }
      }
    }

    /** A hero fallen out of the world is hit and, if the game goes on, respawned. */
    method CheckFall()
      requires Valid()
      modifies this
      ensures Snapshot() == Session.FallCheck(old(Snapshot())) && Valid()
    {
      if hero.y < Session.FallLimit {
        HeroHit();
        if !isGameOver {
          hero := hero.(y := Session.RespawnY, vx := 0.0, vy := 0.0);
        }
      }
    }

    /** One frame; `gap` is the random draw in [400, 700] for a streamed enemy. */
    method Update(gap: real)
      requires Valid() && Streaming.MinGap <= gap <= Streaming.MaxGap
      modifies this
      ensures Snapshot() == Session.Tick(old(Snapshot()), gap, viewWidth) && Valid()
    {
      if isGameOver {
        return;
      }
      Steer();
      PatrolTurtles();
      StreamEnemies(gap);
      CheckFall();
    }

    /** The physics engine's step between two callbacks (see Session.Simulate). */
    method SimulatePhysics(newHero: Session.Body, turtleAt: seq<(real, real, real)>, crossAt: seq<(real, real)>)
      requires Valid() && |turtleAt| == |turtles| && |crossAt| == |crosses|
      modifies this
      ensures Snapshot() == Session.Simulate(old(Snapshot()), newHero, turtleAt, crossAt) && Valid()
    {
      var ts, cs := turtles, crosses;
      hero := newHero;
      turtles := seq(|ts|, i requires 0 <= i < |ts| => ts[i].(x := turtleAt[i].0, y := turtleAt[i].1, vx := turtleAt[i].2));
      crosses := seq(|cs|, j requires 0 <= j < |cs| => cs[j].(x := crossAt[j].0, vx := crossAt[j].1));
    }
  }
}
