/**
 * The ship controls shared by the two versions of updatePlayer
 * (src/player.ts:89-106 and the prototype in src/main.ts:89-104): both
 * steer from the held keys, move by the velocity, apply friction and keep
 * the ship's disc inside a box. The two differ only in the beam lock, the
 * friction factor and the bottom edge, which their own modules supply.
 */
module Controls {
  import opened Utils

  /**
   * The keys the ship reacts to (the KEYS table of src/keyboard.ts);
   * isKeyDown(k) of a frame is `k in held`, for the set of keys held
   * during that frame.
   */
  datatype Key = A | W | S | D | Up | Left | Down | Right

  /** The moving part of a ship: its position and its velocity. */
  datatype Motion = Motion(x: real, y: real, vx: real, vy: real)

  /** One velocity component after its two key tests: the second test runs last, so it wins. */
  function Steer(v: real, back: bool, forth: bool, speed: real): real
  {
    if forth then speed else if back then -speed else v
  }

  /** The velocity after the four key tests: up/W, down/S, left/A, right/D, in that order. */
  function Steered(m: Motion, speed: real, held: set<Key>): Motion
  {
    m.(vy := Steer(m.vy, Up in held || W in held, Down in held || S in held, speed),
       vx := Steer(m.vx, Left in held || A in held, Right in held || D in held, speed))
  }

  /** The two edge tests along one axis: first `v - r <= 0`, then `v + r >= limit`. */
  function Confine(v: real, r: real, limit: real): real
  {
    var low := if v - r <= 0.0 then r else v;
    if low + r >= limit then limit - r else low
  }

  /** Move by the velocity, then scale the velocity by the friction. */
  function Move(m: Motion, friction: real): Motion
  {
    Motion(m.x + m.vx, m.y + m.vy, m.vx * friction, m.vy * friction)
  }

  /** A frame's motion after steering: move, then confine both axes to a width by bottom box. */
  function Drive(m: Motion, friction: real, r: real, width: real, bottom: real): Motion
  {
    var moved := Move(m, friction);
    moved.(x := Confine(moved.x, r, width), y := Confine(moved.y, r, bottom))
  }

  /** The two edge tests agree with clamp(v, r, limit - r) of src/utils.ts. */
  lemma ConfineIsClamp(v: real, r: real, limit: real)
    ensures Confine(v, r, limit) == Clamp(v, r, limit - r)
  {
  }

  /** A disc that fits in the box ends up inside it; the far edge holds whatever the radius. */
  lemma ConfineBounds(v: real, r: real, limit: real)
    ensures Confine(v, r, limit) <= limit - r
    ensures 2.0 * r <= limit ==> r <= Confine(v, r, limit)
  {
    ConfineIsClamp(v, r, limit);
  }

  /** A disc strictly inside the box is not moved by the edge tests, and only then. */
  lemma ConfineInterior(v: real, r: real, limit: real)
    requires 2.0 * r < limit
    ensures (r < v < limit - r) <==> Confine(v, r, limit) == v && v != r && v != limit - r
  {
  }

  /** Down/S beats up/W and right/D beats left/A; with neither held the velocity is kept. */
  lemma SteeredPriority(m: Motion, speed: real, held: set<Key>)
    ensures var s := Steered(m, speed, held);
      s.x == m.x && s.y == m.y &&
      ((Down in held || S in held) ==> s.vy == speed) &&
      ((Up in held || W in held) && Down !in held && S !in held ==> s.vy == -speed) &&
      (Up !in held && W !in held && Down !in held && S !in held ==> s.vy == m.vy) &&
      ((Right in held || D in held) ==> s.vx == speed) &&
      ((Left in held || A in held) && Right !in held && D !in held ==> s.vx == -speed) &&
      (Left !in held && A !in held && Right !in held && D !in held ==> s.vx == m.vx)
  {
  }

  /** Steering never makes a velocity component faster than the ship's speed. */
  lemma SteeredWithinSpeed(m: Motion, speed: real, held: set<Key>)
    requires -speed <= m.vx <= speed && -speed <= m.vy <= speed
    ensures var s := Steered(m, speed, held);
      -speed <= s.vx <= speed && -speed <= s.vy <= speed
  {
  }

  /** Friction between 0 and 1 keeps a velocity bound. */
  lemma FrictionWithinSpeed(v: real, friction: real, speed: real)
    requires 0.0 <= friction <= 1.0 && -speed <= v <= speed
    ensures -speed <= v * friction <= speed
  {
    if v >= 0.0 {
      assert v * friction <= v * 1.0;
    } else {
      assert v * friction >= v * 1.0;
    }
  }

  /** Driving keeps the disc in a box it fits in. */
  lemma DriveBounds(m: Motion, friction: real, r: real, width: real, bottom: real)
    requires 2.0 * r <= width && 2.0 * r <= bottom
    ensures var d := Drive(m, friction, r, width, bottom);
      r <= d.x <= width - r && r <= d.y <= bottom - r
  {
    ConfineBounds(m.x + m.vx, r, width);
    ConfineBounds(m.y + m.vy, r, bottom);
  }

  /**
   * The position advances by the velocity before friction, which is
   * then scaled: an unconfined move lands exactly on old position plus
   * old velocity.
   */
  lemma DriveAdvances(m: Motion, friction: real, r: real, width: real, bottom: real)
    requires 0.0 < friction
    ensures var d := Drive(m, friction, r, width, bottom);
      d.vx / friction == m.vx && d.vy / friction == m.vy &&
      (r < m.x + m.vx < width - r ==> d.x == m.x + d.vx / friction) &&
      (r < m.y + m.vy < bottom - r ==> d.y == m.y + d.vy / friction)
  {
  }
}
