/** The collision categories of the scene's physics bodies and the way a
    contact between two bodies is classified by the union of their
    category bitmasks. */
module PhysicsCategory {

  /** A SpriteKit category, contact-test or collision bitmask (UInt32). */
  type Mask = bv32

  const None: Mask := 0
  const Hero: Mask := 1
  const Ground: Mask := 2
  const Enemy: Mask := 4
  const Projectile: Mask := 8
  const Platform: Mask := 16

  /** The category of every body the scene creates is one of these. */
  predicate IsCategory(c: Mask) {
    c == None || c == Hero || c == Ground || c == Enemy || c == Projectile || c == Platform
  }
}

/** Classification of a contact by the union of the two category masks. */
module Contacts {
  import C = PhysicsCategory

  /** The three rules of the contact callback. */
  datatype Rule = Land | ProjectileHit | HeroEnemy

  /** The union of the two bodies' categories that the contact callback matches on. */
  function Collision(a: C.Mask, b: C.Mask): (c: C.Mask)
    ensures c == b | a
    ensures c & a == a && c & b == b
  {
    a | b
  }

  /** The rules whose guard matches a union: the callback tests the three
      guards one after another, without `else`, so in principle several could
      fire; this set says which ones do. */
  function Fired(c: C.Mask): (rules: set<Rule>)
    ensures |rules| <= 1
    ensures Land in rules <==> c == 3 || c == 17
    ensures ProjectileHit in rules <==> c == 12
    ensures HeroEnemy in rules <==> c == 5
  {
    var land := if c == C.Hero | C.Ground || c == C.Hero | C.Platform then {Land} else {};
    var hit := if c == C.Projectile | C.Enemy then {ProjectileHit} else {};
    var touch := if c == C.Hero | C.Enemy then {HeroEnemy} else {};
    assert land == {} || (hit == {} && touch == {});
    assert hit == {} || touch == {};
    land + hit + touch
  }

  /** For bodies whose categories are single bits, each recognised union
      identifies the pair of categories up to order. */
  lemma UnionIdentifiesPair(a: C.Mask, b: C.Mask)
    requires C.IsCategory(a) && C.IsCategory(b)
    ensures Collision(a, b) == C.Projectile | C.Enemy <==>
              (a == C.Projectile && b == C.Enemy) || (a == C.Enemy && b == C.Projectile)
    ensures Collision(a, b) == C.Hero | C.Enemy <==>
              (a == C.Hero && b == C.Enemy) || (a == C.Enemy && b == C.Hero)
    ensures Collision(a, b) == C.Hero | C.Ground <==>
              (a == C.Hero && b == C.Ground) || (a == C.Ground && b == C.Hero)
    ensures Collision(a, b) == C.Hero | C.Platform <==>
              (a == C.Hero && b == C.Platform) || (a == C.Platform && b == C.Hero)
  {
  }

  /** A killed enemy has category `none`, so a contact with it fires no rule
      whatever the other body is: it can be neither scored again nor hurt the hero. */
  lemma DeadBodyFiresNothing(other: C.Mask)
    requires C.IsCategory(other)
    ensures Fired(Collision(C.None, other)) == {}
    ensures Fired(Collision(other, C.None)) == {}
  {
  }

  /** The stomp test of a hero/enemy contact: the hero's bottom edge (20 below
      its centre) is above the enemy's top (10 above its centre) less a
      tolerance of 5, and the hero is falling (vertical velocity strictly negative). */
  function IsStomp(heroY: real, enemyY: real, heroVy: real): (stomp: bool)
    ensures stomp <==> heroY - enemyY > 25.0 && heroVy < 0.0
    ensures heroVy >= 0.0 ==> !stomp
  {
    var heroBottom := heroY - 20.0;
    var enemyTop := enemyY + 10.0;
    heroBottom > enemyTop - 5.0 && heroVy < 0.0
  }
}
