/**
 * What cows (src/cow.ts) and farmers (src/farmer.ts) share: the moving
 * part of their record and the two-frame walk animation both run when
 * their animation timer fires (src/cow.ts:97-100, src/farmer.ts:65-68).
 */
module Walkers {
  import opened Types

  /** The fields a walker's update changes or reads. */
  datatype Body = Body(x: real, y: real, vx: real, vy: real, scale: Vec2, rotation: real)

  /** Move by the velocity. */
  function Walk(b: Body): Body
  {
    b.(x := b.x + b.vx, y := b.y + b.vy)
  }

  /** The tilt after a timer tick: -0.02 if tilted back, otherwise upright. */
  function Sway(rotation: real): real
  {
    if rotation < 0.0 then -0.02 else 0.0
  }

  /** The vertical stretch after a timer tick: 1 becomes 1.1, anything else becomes 1. */
  function Bob(scaleY: real): real
  {
    if scaleY == 1.0 then 1.1 else 1.0
  }

  /** One timer tick of the walk animation. */
  function Animate(b: Body): Body
  {
    b.(rotation := Sway(b.rotation), scale := b.scale.(y := Bob(b.scale.y)))
  }

  /** An upright walker whose stretch is one of the two animation frames. */
  predicate Level(b: Body)
  {
    b.rotation == 0.0 && (b.scale.y == 1.0 || b.scale.y == 1.1)
  }

  /** The stretch alternates between 1 and 1.1, and any other value falls into that cycle. */
  lemma BobAlternates(s: real)
    ensures Bob(s) == 1.0 || Bob(s) == 1.1
    ensures (s == 1.0 || s == 1.1) ==> Bob(s) != s && Bob(Bob(s)) == s
  {
  }

  /** The tilt is one of two values; an upright walker stays upright. */
  lemma SwaySettles(rotation: real)
    ensures Sway(rotation) == -0.02 || Sway(rotation) == 0.0
    ensures rotation >= 0.0 ==> Sway(rotation) == 0.0
    ensures Sway(Sway(rotation)) == Sway(rotation)
  {
  }

  /** A tick keeps a level walker level and moves nothing else. */
  lemma AnimateKeepsLevel(b: Body)
    requires Level(b)
    ensures var a := Animate(b);
      Level(a) && a.scale.y != b.scale.y &&
      a.x == b.x && a.y == b.y && a.vx == b.vx && a.vy == b.vy && a.scale.x == b.scale.x
  {
  }
}
