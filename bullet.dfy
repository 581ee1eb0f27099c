/**
 * The bullets of src/bullet.ts. A bullet's origin, position and velocity
 * are Vec2 values: the two records the source allocates per bullet are
 * separate from each other and from the constructor's argument, and a
 * value has no aliases, so moving the position cannot touch the origin.
 */
module Bullet {
  import opened Types
  import opened JsMath

  class Bullet {
    var angle: real
    var origin: Vec2
    var position: Vec2
    var velocity: Vec2
    var width: real
    var height: real

    /** new Bullet(angle, origin): both the origin and the position copy the argument's coordinates. */
    constructor (angle: real, origin: Vec2)
      ensures this.angle == angle && this.origin == origin && position == origin
      ensures velocity == Vec2(2.0, 2.0) && width == 6.0 && height == 6.0
    {
      this.angle := angle;
      this.origin := Vec2(origin.x, origin.y);
      position := Vec2(origin.x, origin.y);
      velocity := Vec2(2.0, 2.0);
      width := 6.0;
      height := 6.0;
    }

    /** update(): one step along the heading; `cos` and `sin` stand for Math.cos and Math.sin. */
    method Update(cos: real -> real, sin: real -> real)
      modifies this`position
      ensures position == Advance(old(position), Heading(angle, velocity, cos, sin))
      ensures origin == old(origin) && velocity == old(velocity) && angle == old(angle)
      ensures width == old(width) && height == old(height)
    {
      position := position.(x := position.x + cos(angle) * velocity.x);
      position := position.(y := position.y + sin(angle) * velocity.y);
    }
  }

  /** The per-update displacement: (cos(angle) * velocity.x, sin(angle) * velocity.y). */
  function Heading(angle: real, velocity: Vec2, cos: real -> real, sin: real -> real): Vec2
  {
    Vec2(cos(angle) * velocity.x, sin(angle) * velocity.y)
  }

  function Advance(p: Vec2, step: Vec2): Vec2
  {
    Vec2(p.x + step.x, p.y + step.y)
  }

  /** The position after n updates from start, one update at a time. */
  function Flight(start: Vec2, step: Vec2, n: nat): Vec2
  {
    if n == 0 then start else Advance(Flight(start, step, n - 1), step)
  }

  /** n updates from the origin put the bullet at origin + n * step. */
  lemma {:induction false} FlightDistance(start: Vec2, step: Vec2, n: nat)
    ensures Flight(start, step, n) == Vec2(start.x + n as real * step.x, start.y + n as real * step.y)
  {
    if n > 0 {
      FlightDistance(start, step, n - 1);
      OneMoreFrame(n - 1, step.x);
      OneMoreFrame(n - 1, step.y);
    }
  }

  /** Fired at angle 0 (pointing right), a bullet with the initial velocity moves 2 pixels right and none down per update. */
  lemma FiredRight(cos: real -> real, sin: real -> real)
    requires cos(0.0) == 1.0 && sin(0.0) == 0.0
    ensures Heading(0.0, Vec2(2.0, 2.0), cos, sin) == Vec2(2.0, 0.0)
  {
  }
}
