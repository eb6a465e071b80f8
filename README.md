# HelloGit game scene: a verified model of its game rules

HelloGit is a small side-scrolling game for iOS. A hero walks along a ground
strip 8000 points wide, jumps, swings a whip and throws crosses at patrolling
turtles. Touching a turtle costs a life unless the hero lands on it from
above. Three lives lost end the game, and a tap restarts it. All the rules
live in one SpriteKit scene, `GameScene`. This project models those rules in
Dafny and proves properties of them.

The model has two layers.

* **Pure rules** (`physics_category.dfy`, `viewport.dfy`, `patrol.dfy`,
  `streaming.dfy`, `session.dfy`):
  * the physics category bitmasks;
  * the classification of a contact by the union of two category masks, and
    the stomp test;
  * the clamps of the hero, the camera and the parallax layers;
  * the turtles' patrol step;
  * the placement of enemies and the streaming watermark `lastEnemySpawnX`;
  * one function per scene operation, over a value `Session.State` that holds
    all of the scene's game state.

  `Session.Inv` is the session invariant:
  * lives lie in [0, 3], and the game is over exactly when lives are 0;
  * the score is a non-negative multiple of 100;
  * a whip hitbox exists exactly while attacking, 68 out in the hero's own frame;
  * the watermark is at least 7800;
  * every turtle is well formed.

  Every operation of the model preserves the invariant, except
  `Session.WhipAttackAsWritten`, the as-written whip kept for the findings
  below.
* **The scene object** (`game_scene.dfy`): class `Scene.GameScene` keeps the
  same state in mutable fields, as the Swift class does. Its methods update
  those fields in place. The postcondition of each public
  operation says that the new fields are exactly the matching `Session`
  function applied to the old fields
  (`Snapshot() == Session.Hit(old(Snapshot()))` and so on). The two helpers
  `SpawnInitialEnemies` and `GameOver` have no `Session` counterpart of their
  own; their postconditions state the fields they set directly. The loops over
  touches and over turtles carry invariants that tie the loop state to the
  pure definitions.

The physics engine is not modelled. What it supplies appears as inputs:
* the bodies reported in a contact (`BodyRef`);
* the positions and velocities after a simulation step (`Session.Simulate`);
* the random gap for a streamed enemy (a parameter in [400, 700]).

An impulse applied to the hero changes its velocity at once by the impulse
divided by the hero's mass, 0.5 (`Session.Push`). This is what SpriteKit's
`applyImpulse` does. A jump therefore leaves the hero rising at 480 within
the same frame, and the ground check of the next update does not undo it
(`Session.JumpLeavesGroundForTheFrame`).

The hero node's horizontal scale is 1 while it faces right and -1 while it
faces left. It is set together with `heroFacingRight` at
GameScene.swift:741-746 and 978-979, and starts at 1, so the model does not
keep it as a separate field. It matters for the whip: the whip hangs from the
hero, so its hitbox offset (`whip`) is in the hero's own frame, and the scale
mirrors it (`Session.WhipWorldOffset`).

Several behaviours of the code differ from what its comments and labels
suggest. The model follows the code in each case:
* The ground check at line 1018 needs no landing. A hero at the top of its
  arc, with a vertical speed under 5, counts as standing and can jump again
  in mid-air (`Session.ApexCountsAsStanding`). A hit leaves `isOnGround` as
  it was, so a hero knocked off the ground while standing can jump in the air.
* A button's container, ring and label all carry the button's name (lines
  496, 504 and 512). A touch on the label also lies inside the ring, so the
  node list at line 735 can name the button twice, and the loop at 737
  handles every named node it finds. For the attack button that is one swing and two
  crosses (`Session.AttackTouchedTwiceThrowsTwo`).
* A turtle's x is never clamped to its patrol range. The patrol only flips
  direction once the turtle is at or beyond a bound, so an engine step can
  carry a turtle past the bound.
* While the game is over, any touch restarts the game, wherever it lands, not
  only a tap on the "Tap to restart" label.
* A stomp needs a strictly negative vertical velocity. A hero at rest on top
  of a turtle is hit.
* Category 16 (`platform`) is named in the masks, but no body ever has it.
* A killed turtle stays in the scene with all masks cleared, and it still
  takes its patrol step, until its death animation removes it.
* In the shipped level, the streaming that the comment at line 1053 describes
  never fires. The initial placement leaves
  the watermark at 7800, and 7800 + 400 is already past the 7900 limit.
  `Streaming.ShippedLevelNeverStreams` and `Session.StreamingIsIdleInPlay`
  prove this.

## Model

| member | source | states |
|---|---|---|
| Contacts.Collision | HelloGit/HelloGit/GameScene.swift:806 | the union of two category masks contains both masks and does not depend on their order |
| Contacts.Fired | HelloGit/HelloGit/GameScene.swift:808-848 | at most one contact rule fires for a union: landing exactly for 3 (hero+ground) or 17 (hero+platform), projectile hit exactly for 12, hero/enemy exactly for 5 |
| Contacts.UnionIdentifiesPair | HelloGit/HelloGit/GameScene.swift:11-18 | since the categories are distinct single bits, a union of 12, 5, 3 or 17 determines the pair of categories, so the `bodyA == enemy ? A : B` selections pick the right bodies |
| Contacts.DeadBodyFiresNothing | HelloGit/HelloGit/GameScene.swift:856-858 | a body whose category was cleared to none fires no contact rule, whatever the other body is |
| Contacts.IsStomp | HelloGit/HelloGit/GameScene.swift:834-838 | the hero lands on an enemy exactly when it is more than 25 above the enemy's centre and falling; a hero at rest or rising never stomps |
| Viewport.ClampHeroX | HelloGit/HelloGit/GameScene.swift:1012-1015 | the hero's x ends up in [20, world - 20]; it is unchanged when already inside that range and otherwise set to the nearer bound |
| Viewport.CameraX | HelloGit/HelloGit/GameScene.swift:1022-1026 | the camera keeps the view inside the world; it follows the hero exactly when the hero is at least half a view away from both ends |
| Viewport.ParallaxX | HelloGit/HelloGit/GameScene.swift:1028-1031 | a layer sits at its origin while the camera is at its leftmost position, and lies left of it exactly when the camera has moved right (for a positive factor) |
| Viewport.ParallaxFollowsCamera | HelloGit/HelloGit/GameScene.swift:1028-1031 | a layer moves opposite to the camera, by exactly factor times the camera's own move |
| Viewport.ParallaxBounds | HelloGit/HelloGit/GameScene.swift:1028-1031 | with the camera clamped, each parallax layer lies between 0 and -factor times the scrollable width |
| Patrol.Spawn | HelloGit/HelloGit/GameScene.swift:528-615 | a new turtle is an enemy walking left, patrolling 60 on either side of its spawn x, and reporting contacts with the hero and projectiles |
| Patrol.Killed | HelloGit/HelloGit/GameScene.swift:856-858 | killing a turtle clears all three of its masks and changes nothing else |
| Patrol.Step | HelloGit/HelloGit/GameScene.swift:1034-1051 | the velocity follows the direction held before the step; the direction flips exactly when walking left at or before patrolStart, or walking right at or beyond patrolEnd; the position is not touched |
| Patrol.StepAll | HelloGit/HelloGit/GameScene.swift:1033-1051 | every turtle takes its own step, independently of the others, and stays well formed |
| Patrol.Walk | HelloGit/HelloGit/GameScene.swift:1033-1051 | repeated engine moves and patrol steps keep a turtle well formed and keep its patrol range |
| Patrol.KeepsDirectionInside | HelloGit/HelloGit/GameScene.swift:1044-1050 | a turtle walking right keeps walking right for as long as the engine leaves it short of patrolEnd |
| Streaming.InitialTurtles | HelloGit/HelloGit/GameScene.swift:519-525 | the new run places 15 fresh, well-formed turtles in increasing x order, the last one at the watermark 7800 |
| Streaming.SpawnX | HelloGit/HelloGit/GameScene.swift:1053-1060 | an enemy is streamed exactly when the hero is past watermark - 800 and watermark + gap is short of world - 100; it lands 400 to 700 beyond the watermark |
| Streaming.NextWatermark | HelloGit/HelloGit/GameScene.swift:1058 | the watermark either stays put or moves forward by at least 400, and it moves exactly when an enemy is streamed |
| Streaming.Streamed | HelloGit/HelloGit/GameScene.swift:1053-1060 | over any run of ticks, the streamed enemies are at least 400 apart, in increasing order, and all short of the world's end margin |
| Streaming.Watermark | HelloGit/HelloGit/GameScene.swift:1053-1060 | over any run of ticks, the watermark never moves back and always equals the last streamed x |
| Streaming.NothingStreamsNearTheEnd | HelloGit/HelloGit/GameScene.swift:1054-1056 | once watermark + 400 reaches world - 100, no later tick streams anything |
| Streaming.ShippedLevelNeverStreams | HelloGit/HelloGit/GameScene.swift:169-194 | in the 8000-wide level, with the watermark at 7800 or beyond, streaming never fires |
| Session.Initial | HelloGit/HelloGit/GameScene.swift:35-46 | the first state satisfies the invariant: 3 lives, score 0, running, the fixed turtles placed |
| Session.Hit | HelloGit/HelloGit/GameScene.swift:889-920 | a hit does nothing when the game is over; otherwise it costs exactly one life, sets game over exactly at 0 lives, stops the hero and then applies the knock-back impulse (80 away from the facing side, 120 up), leaving it moving at 160 away from its facing and 240 up |
| Session.LivesCountDown | HelloGit/HelloGit/GameScene.swift:892-919 | from a running game, n hits (n at most lives) leave lives - n, keep the score, and end the game exactly on the last life |
| Session.Kill | HelloGit/HelloGit/GameScene.swift:851-858 | a kill adds exactly 100 points and clears that turtle's masks; no other turtle and no other field changes |
| Session.Restart | HelloGit/HelloGit/GameScene.swift:959-990 | a restart gives score 0, 3 lives, a running game, the hero at its start facing right, the fixed turtles, no crosses and watermark 7800; a whip swing in progress is kept |
| Session.Jump | HelloGit/HelloGit/GameScene.swift:784-788 | a jump happens only when standing and running: it leaves the ground, zeroes the vertical velocity and applies an upward impulse of 240, so the hero rises at 480; otherwise nothing changes |
| Session.Push | HelloGit/HelloGit/GameScene.swift:429 | an impulse changes the hero's momentum (mass 0.5 times velocity) by exactly the impulse, at once, and leaves its position alone |
| Session.WhipAttackAsWritten | HelloGit/HelloGit/GameScene.swift:628-670 | a swing starts only when none is on and the game runs; its hitbox offset in the hero's own frame is the facing direction times 68 |
| Session.WhipAsWrittenStrikesBehind | HelloGit/HelloGit/GameScene.swift:635-669 | as written, a new swing's hitbox always lands 68 to the right of the hero, so for a hero facing left it is behind |
| Session.WhipAttack | HelloGit/HelloGit/GameScene.swift:628-670 | corrected placement: a swing starts only when none is on and the game runs, and its hitbox lands 68 out on the side the hero faces |
| Session.WhipWorldOffset | HelloGit/HelloGit/GameScene.swift:741-746 | the whip hangs from the hero (line 669), whose xScale is set with the facing, so the hitbox's world offset is its own offset facing right and its negation facing left |
| Session.FinishWhip | HelloGit/HelloGit/GameScene.swift:677-682 | the end of a swing removes the hitbox and clears attacking; nothing else changes |
| Session.ThrowCross | HelloGit/HelloGit/GameScene.swift:688-711 | unless the game is over, exactly one cross is appended: 15 ahead of and 5 above the hero, flying at 350 in the facing direction |
| Session.ExpireCross | HelloGit/HelloGit/GameScene.swift:719-723 | an expiring cross is removed and the other crosses keep their order |
| Session.RemoveTurtle | HelloGit/HelloGit/GameScene.swift:869 | at the end of its death animation, a killed turtle leaves the scene and the other turtles keep their order |
| Session.Press | HelloGit/HelloGit/GameScene.swift:737-755 | one button press keeps lives, score and turtles; attack appends exactly one cross and starts the swing; other buttons leave the crosses alone; left and right set the facing, and jump and attack keep it |
| Session.PressAll | HelloGit/HelloGit/GameScene.swift:733-757 | pressing the touched buttons in a running game keeps the invariant, lives, score, turtles and watermark |
| Session.PressAllFlags | HelloGit/HelloGit/GameScene.swift:737-755 | each move flag ends set exactly when it was set or its button was pressed; standing ends exactly when jump was pressed; attacking ends exactly when it was on or attack was pressed |
| Session.PressFlags | HelloGit/HelloGit/GameScene.swift:737-755 | one press sets only its own move flag, leaves the ground only for jump, and starts attacking only for attack |
| Session.PressAllCrosses | HelloGit/HelloGit/GameScene.swift:749-752 | the number of new crosses equals the number of attack presses, and earlier crosses are untouched |
| Session.AttackTouchedTwiceThrowsTwo | HelloGit/HelloGit/GameScene.swift:737-752 | a touch that lists the attack button twice, once for its ring and once for its label, starts one swing and throws two crosses |
| Session.PressAllFacing | HelloGit/HelloGit/GameScene.swift:737-755 | the hero faces the way of the last left or right button pressed, whatever other buttons follow it |
| Session.PressAllKeepsFacing | HelloGit/HelloGit/GameScene.swift:747-752 | when neither left nor right is pressed, the hero keeps its facing |
| Session.TouchesBegan | HelloGit/HelloGit/GameScene.swift:727-758 | a touch while the game is over is exactly a restart; otherwise lives and score are kept; afterwards the game always runs |
| Session.Release | HelloGit/HelloGit/GameScene.swift:765-773 | releasing left or right clears its flag, and nothing else changes |
| Session.ReleaseAll | HelloGit/HelloGit/GameScene.swift:760-776 | a move flag ends set exactly when it was set and its button was not among those released; nothing else changes |
| Session.TouchesCancelled | HelloGit/HelloGit/GameScene.swift:778-781 | cancelled touches clear both move flags and nothing else |
| Session.Category | HelloGit/HelloGit/GameScene.swift:806 | each body has a single category; only a live turtle is an enemy; exactly crosses and the whip hitbox are projectiles; only the hero is a hero |
| Session.ProjectileHit | HelloGit/HelloGit/GameScene.swift:815-826 | a projectile hit kills the enemy and scores 100 without costing a life; a cross is removed, but the whip hitbox stays |
| Session.HeroTouch | HelloGit/HelloGit/GameScene.swift:829-847 | a stomp kills the enemy, scores 100, zeroes the hero's vertical velocity and applies an upward impulse of 144, so it rises at 288, with nothing else changed; any other touch is exactly a hit |
| Session.Contact | HelloGit/HelloGit/GameScene.swift:802-849 | a contact keeps the invariant and the number of turtles, and never adds a life |
| Session.ContactRules | HelloGit/HelloGit/GameScene.swift:806-848 | a union no rule matches changes nothing; a landing only sets standing; a projectile hit scores 100 without costing a life; a hero/enemy contact either scores 100 or is a hit |
| Session.ContactDispatch | HelloGit/HelloGit/GameScene.swift:815-847 | the body the callback takes as the enemy is the turtle, and the contact is exactly ProjectileHit on that turtle and the projectile, or exactly HeroTouch on that turtle |
| Session.ContactKillsOnlyTheLiving | HelloGit/HelloGit/GameScene.swift:851-858 | a contact never touches a killed turtle, and when it scores, a live turtle was killed for it |
| Session.ContactIsSymmetric | HelloGit/HelloGit/GameScene.swift:802-849 | a contact does not depend on which body the engine reports as A |
| Session.KilledTurtleIsInert | HelloGit/HelloGit/GameScene.swift:856-858 | a contact with a killed turtle changes nothing: it cannot be scored again and cannot hurt the hero |
| Session.Steer | HelloGit/HelloGit/GameScene.swift:1003-1031 | left wins over right for the velocity, and without either the velocity decays by 0.85; x is clamped; a vertical speed under 5 counts as standing; the camera and both layers follow the hero; nothing else changes |
| Session.PatrolAll | HelloGit/HelloGit/GameScene.swift:1033-1051 | the patrol phase replaces the turtles by their steps and changes nothing else |
| Session.StreamEnemy | HelloGit/HelloGit/GameScene.swift:1053-1060 | the watermark moves as Streaming.NextWatermark says; a fresh turtle is appended exactly when it moves, at the new watermark |
| Session.StreamingIsIdleInPlay | HelloGit/HelloGit/GameScene.swift:1053-1060 | in every state the invariant allows, the streaming phase changes nothing |
| Session.FallCheck | HelloGit/HelloGit/GameScene.swift:1062-1069 | a hero below -50 is hit, and if the game goes on it is put back at height 120 at rest; otherwise nothing changes |
| Session.Tick | HelloGit/HelloGit/GameScene.swift:992-1070 | a frame does nothing when the game is over; otherwise it keeps the hero in [20, 7980] and the camera in range, steps every turtle, streams nothing, keeps the score and the crosses, costs a life exactly on a fall, and respawns a fallen hero at rest |
| Session.JumpLeavesGroundForTheFrame | HelloGit/HelloGit/GameScene.swift:784-788 | after a jump, the next update leaves the hero off the ground, so a second jump in that frame does nothing |
| Session.ApexCountsAsStanding | HelloGit/HelloGit/GameScene.swift:1017-1020 | the ground check needs no landing: a hero in the air with vertical speed under 5 counts as standing after steering, and a jump from there takes effect |
| Session.Simulate | HelloGit/HelloGit/GameScene.swift:421-429 | the engine step sets the hero's body and the turtles' and crosses' positions and velocities; the turtles' masks and patrol data and every game-rule field are kept |
| Scene.GameScene.constructor | HelloGit/HelloGit/GameScene.swift:64-85 | the presented scene holds exactly the initial state |
| Scene.GameScene.SpawnInitialEnemies | HelloGit/HelloGit/GameScene.swift:519-526 | the loop appends the 15 fixed turtles in order and sets the watermark to 7800 |
| Scene.GameScene.GameOver | HelloGit/HelloGit/GameScene.swift:922-923 | the game is over afterwards |
| Scene.GameScene.HeroHit | HelloGit/HelloGit/GameScene.swift:889-920 | the fields change exactly as Session.Hit says |
| Scene.GameScene.KillEnemy | HelloGit/HelloGit/GameScene.swift:851-858 | the fields change exactly as Session.Kill says |
| Scene.GameScene.RestartGame | HelloGit/HelloGit/GameScene.swift:959-990 | the fields change exactly as Session.Restart says |
| Scene.GameScene.Jump | HelloGit/HelloGit/GameScene.swift:784-788 | the fields change exactly as Session.Jump says |
| Scene.GameScene.PerformWhipAttack | HelloGit/HelloGit/GameScene.swift:628-670 | the fields change exactly as Session.WhipAttack says, with the corrected hitbox placement |
| Scene.GameScene.FinishWhip | HelloGit/HelloGit/GameScene.swift:677-682 | the fields change exactly as Session.FinishWhip says |
| Scene.GameScene.ThrowCross | HelloGit/HelloGit/GameScene.swift:688-711 | the fields change exactly as Session.ThrowCross says |
| Scene.GameScene.ExpireCross | HelloGit/HelloGit/GameScene.swift:719-723 | the fields change exactly as Session.ExpireCross says |
| Scene.GameScene.RemoveTurtle | HelloGit/HelloGit/GameScene.swift:869 | the fields change exactly as Session.RemoveTurtle says |
| Scene.GameScene.Press | HelloGit/HelloGit/GameScene.swift:737-755 | the fields change exactly as Session.Press says |
| Scene.GameScene.TouchesBegan | HelloGit/HelloGit/GameScene.swift:727-758 | the loop over the touched buttons gives exactly Session.TouchesBegan |
| Scene.GameScene.Release | HelloGit/HelloGit/GameScene.swift:765-773 | the fields change exactly as Session.Release says |
| Scene.GameScene.TouchesEnded | HelloGit/HelloGit/GameScene.swift:760-776 | the loop over the released buttons gives exactly Session.ReleaseAll |
| Scene.GameScene.TouchesCancelled | HelloGit/HelloGit/GameScene.swift:778-781 | the fields change exactly as Session.TouchesCancelled says |
| Scene.GameScene.StrikeEnemy | HelloGit/HelloGit/GameScene.swift:815-826 | the fields change exactly as Session.ProjectileHit says |
| Scene.GameScene.TouchEnemy | HelloGit/HelloGit/GameScene.swift:829-847 | the fields change exactly as Session.HeroTouch says |
| Scene.GameScene.DidBegin | HelloGit/HelloGit/GameScene.swift:802-849 | the fields change exactly as Session.Contact says |
| Scene.GameScene.Steer | HelloGit/HelloGit/GameScene.swift:1003-1031 | the fields change exactly as Session.Steer says |
| Scene.GameScene.PatrolTurtles | HelloGit/HelloGit/GameScene.swift:1033-1051 | the in-place loop over the turtles gives exactly Session.PatrolAll |
| Scene.GameScene.StreamEnemies | HelloGit/HelloGit/GameScene.swift:1053-1060 | the fields change exactly as Session.StreamEnemy says |
| Scene.GameScene.CheckFall | HelloGit/HelloGit/GameScene.swift:1062-1069 | the fields change exactly as Session.FallCheck says |
| Scene.GameScene.Update | HelloGit/HelloGit/GameScene.swift:992-1070 | the fields change exactly as Session.Tick says |
| Scene.GameScene.SimulatePhysics | HelloGit/HelloGit/GameScene.swift:421-429 | the fields change exactly as Session.Simulate says |

## Left out

- Rendering is not modelled: the shape nodes, labels, HUD text, colours, the moon, gravestones, torches, flashes, score pop-ups and the game-over labels.
- SKAction timing is not modelled. The end of a whip swing, the two-second life of a cross and the end of a turtle's death animation are explicit operations (FinishWhip, ExpireCross, RemoveTurtle) that the caller invokes at those moments.
- The death animation's motion of a killed turtle (up 30, down 60, rotation) is not modelled, because it is visual.
- The SpriteKit physics simulation is not modelled: gravity, collisions, friction and damping. Session.Simulate and Scene.GameScene.SimulatePhysics take the engine's results as inputs, including the crosses' and turtles' velocities.
- Touch hit-testing is not modelled. A touch event is the sequence of on-screen buttons it hit, in order. Touches outside any button are dropped, and a touch over two nodes is two entries.
- Randomness is a parameter: the streaming gap is an argument in [400, 700]. The random decorations and the random whip segment heights are visual and not modelled.
- The frame time `dt` is computed by the source but never used; it and `lastUpdateTime` are not modelled.
- CGFloat arithmetic is modelled with exact reals, so rounding is not modelled.
- Session.Kill: the score is an unbounded integer; the model does not capture Swift's trap on `Int` overflow, which would need about 9·10^16 kills.
- The turtles' xScale flips are not modelled: a turtle's physics body is centred on its own x, so mirroring it moves nothing. The hero's xScale is not a separate field because it always equals the facing direction, and the model uses it to place the whip hitbox.
- `scrollSpeed` and `lastGroundX` are set but never read by the rules, so they are not modelled.
- ContentView.swift and HelloGitApp.swift only host the scene; they are not part of this model.

## Findings

| source | as written | input that shows it | evidently intended | confidence | as-written member | corrected member |
|---|---|---|---|---|---|---|
| HelloGit/HelloGit/GameScene.swift:635-669 | the whip's segments and its hitbox are placed at the facing direction times their offset, inside a whip node that hangs from the hero, whose xScale is already -1 when it faces left | a hero facing left swings: the hitbox lands at -1 · (-68) = +68, behind the hero | the hitbox at 68 on the side the hero faces, that is, an unsigned offset that the hero's scale mirrors | medium, not executed | Session.WhipAttackAsWritten, Session.WhipAsWrittenStrikesBehind | Session.WhipAttack |
