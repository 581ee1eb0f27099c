/**
 * The prototype ship of src/main.ts, which has its own canvas size, a
 * friction of 0.96, no beam lock and the canvas bottom (not the floor)
 * as its lower edge.
 */
module Prototype {
  import opened Types
  import opened Controls

  const CANVAS_WIDTH: real := 640.0
  const CANVAS_HEIGHT: real := 480.0
  const FRICTION: real := 0.96

  class Player {
    var x: real
    var y: real
    var vx: real
    var vy: real
    var color: string
    var speed: real
    var radius: real
    var rotation: real

    /** createPlayer: at the given point and at rest. */
    constructor (pos: Vec2)
      ensures x == pos.x && y == pos.y && vx == 0.0 && vy == 0.0
      ensures speed == 4.0 && radius == 10.0 && rotation == 0.0 && color == "#fff"
    {
      x, y := pos.x, pos.y;
      vx, vy := 0.0, 0.0;
      speed := 4.0;
      radius := 10.0;
      rotation := 0.0;
      color := "#fff";
    }

    function State(): Motion
      reads this
    {
      Motion(x, y, vx, vy)
    }
  }

  /** One frame of the prototype updatePlayer: steer, move, slow by 0.96, keep on the canvas. */
  function PrototypeStep(m: Motion, speed: real, radius: real, held: set<Key>): Motion
  {
    Drive(Steered(m, speed, held), FRICTION, radius, CANVAS_WIDTH, CANVAS_HEIGHT)
  }

  /** The prototype updatePlayer: the key tests, the move with friction, then the edge tests. */
  method UpdatePlayer(p: Player, held: set<Key>)
    modifies p`x, p`y, p`vx, p`vy
    ensures p.State() == PrototypeStep(old(p.State()), p.speed, p.radius, held)
    ensures 2.0 * p.radius <= CANVAS_HEIGHT ==>
      p.radius <= p.x <= CANVAS_WIDTH - p.radius && p.radius <= p.y <= CANVAS_HEIGHT - p.radius
    ensures p.speed == old(p.speed) && p.radius == old(p.radius)
    ensures p.rotation == old(p.rotation) && p.color == old(p.color)
  {
    SteerShip(p, held);
    MoveShip(p);
    KeepShipInside(p);
    if 2.0 * p.radius <= CANVAS_HEIGHT {
      PrototypeStepInBounds(old(p.State()), p.speed, p.radius, held);
    }
  }

  /** The four key tests; a later test overrides an earlier one. */
  method SteerShip(p: Player, held: set<Key>)
    modifies p`vx, p`vy
    ensures p.State() == Steered(old(p.State()), p.speed, held)
  {
    if Up in held || W in held { p.vy := -p.speed; }
    if Down in held || S in held { p.vy := p.speed; }
    if Left in held || A in held { p.vx := -p.speed; }
    if Right in held || D in held { p.vx := p.speed; }
  }

  /** Move by the velocity, then apply the prototype's friction to it. */
  method MoveShip(p: Player)
    modifies p`x, p`y, p`vx, p`vy
    ensures p.State() == Move(old(p.State()), FRICTION)
  {
    p.x := p.x + p.vx;
    p.y := p.y + p.vy;
    p.vx := p.vx * FRICTION;
    p.vy := p.vy * FRICTION;
  }

  /** The edge tests of the prototype in their order: left, top, right, bottom. */
  method KeepShipInside(p: Player)
    modifies p`x, p`y
    ensures p.x == Confine(old(p.x), p.radius, CANVAS_WIDTH) && p.y == Confine(old(p.y), p.radius, CANVAS_HEIGHT)
  {
    if p.x - p.radius <= 0.0 { p.x := p.radius; }
    if p.y - p.radius <= 0.0 { p.y := p.radius; }
    if p.x + p.radius >= CANVAS_WIDTH { p.x := CANVAS_WIDTH - p.radius; }
    if p.y + p.radius >= CANVAS_HEIGHT { p.y := CANVAS_HEIGHT - p.radius; }
  }

  /** After a frame the ship's disc lies on the canvas. */
  lemma PrototypeStepInBounds(m: Motion, speed: real, radius: real, held: set<Key>)
    requires 2.0 * radius <= CANVAS_HEIGHT
    ensures var n := PrototypeStep(m, speed, radius, held);
      radius <= n.x <= CANVAS_WIDTH - radius && radius <= n.y <= CANVAS_HEIGHT - radius
  {
    DriveBounds(Steered(m, speed, held), FRICTION, radius, CANVAS_WIDTH, CANVAS_HEIGHT);
  }

  /** There is no beam lock: down/S beats up/W and right/D beats left/A on every frame. */
  lemma PrototypeStepKeyPriority(m: Motion, speed: real, radius: real, held: set<Key>)
    ensures var n := PrototypeStep(m, speed, radius, held);
      ((Down in held || S in held) ==> n.vy == speed * FRICTION) &&
      ((Up in held || W in held) && Down !in held && S !in held ==> n.vy == -speed * FRICTION) &&
      ((Right in held || D in held) ==> n.vx == speed * FRICTION) &&
      ((Left in held || A in held) && Right !in held && D !in held ==> n.vx == -speed * FRICTION)
  {
    SteeredPriority(m, speed, held);
  }

  /** With no key held the velocity only decays by 0.96 and an unstopped ship moves by its old velocity. */
  lemma PrototypeStepCoasts(m: Motion, speed: real, radius: real, held: set<Key>)
    requires forall k: Key :: k !in held
    ensures var n := PrototypeStep(m, speed, radius, held);
      n.vx == m.vx * 0.96 && n.vy == m.vy * 0.96 &&
      (radius < m.x + m.vx < CANVAS_WIDTH - radius ==> n.x == m.x + m.vx) &&
      (radius < m.y + m.vy < CANVAS_HEIGHT - radius ==> n.y == m.y + m.vy)
  {
    assert Up !in held && W !in held && Down !in held && S !in held;
    assert Left !in held && A !in held && Right !in held && D !in held;
  }

  /** The ship moves by its velocity before friction whenever no edge stops it. */
  lemma PrototypeStepAdvances(m: Motion, speed: real, radius: real, held: set<Key>)
    ensures var n := PrototypeStep(m, speed, radius, held);
      (radius < m.x + n.vx / FRICTION < CANVAS_WIDTH - radius ==> n.x == m.x + n.vx / FRICTION) &&
      (radius < m.y + n.vy / FRICTION < CANVAS_HEIGHT - radius ==> n.y == m.y + n.vy / FRICTION)
  {
    DriveAdvances(Steered(m, speed, held), FRICTION, radius, CANVAS_WIDTH, CANVAS_HEIGHT);
  }
}
