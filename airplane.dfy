/**
 * The airplanes of src/airplane.ts: createAirplane becomes the class's
 * constructor and updateAirplane a method that moves the plane along x.
 */
module Airplane {
  import opened Types
  import opened JsMath

  class Airplane {
    var x: real
    var y: real
    var vx: real
    var vy: real
    var color: string
    var radius: real
    var active: bool
    var speed: real
    var scaleX: real
    /** The period of the plane's firing timer, in milliseconds. */
    var fireRateMs: int

    /** createAirplane: inactive and at rest at the given point. */
    constructor (pos: Vec2)
      ensures x == pos.x && y == pos.y && vx == 0.0 && vy == 0.0
      ensures speed == 1.0 && color == "#fff" && radius == 40.0 && !active && scaleX == 1.0 && fireRateMs == 500
    {
      x, y := pos.x, pos.y;
      vx, vy := 0.0, 0.0;
      speed := 1.0;
      color := "#fff";
      radius := 40.0;
      active := false;
      scaleX := 1.0;
      fireRateMs := 500;
    }
  }

  /** updateAirplane: the plane flies horizontally by its own velocity; nothing else changes. */
  method UpdateAirplane(plane: Airplane)
    modifies plane`x
    ensures plane.x == old(plane.x) + plane.vx
    ensures plane.y == old(plane.y) && plane.vy == old(plane.vy) && plane.active == old(plane.active)
    ensures plane.scaleX == old(plane.scaleX) && plane.radius == old(plane.radius) && plane.speed == old(plane.speed)
  {
    plane.x := plane.x + plane.vx;
  }

  /** Where a plane starting at x with velocity vx is after n updates, one update at a time. */
  function Flown(x: real, vx: real, n: nat): real
  {
    if n == 0 then x else Flown(x, vx, n - 1) + vx
  }

  /** n updates move the plane by n*vx; a plane at rest (as created) does not move. */
  lemma {:induction false} FlownDistance(x: real, vx: real, n: nat)
    ensures Flown(x, vx, n) == x + n as real * vx
    ensures vx == 0.0 ==> Flown(x, vx, n) == x
  {
    if n > 0 {
      FlownDistance(x, vx, n - 1);
      OneMoreFrame(n - 1, vx);
    }
  }
}
