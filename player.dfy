/**
 * The player's ship of src/player.ts: createPlayer becomes the class's
 * constructor and updatePlayer a method that changes the ship's position
 * and velocity in place, specified by the function PlayerStep.
 */
module Player {
  import opened Types
  import opened Constants
  import opened Controls

  class Player {
    var x: real
    var y: real
    var vx: real
    var vy: real
    var color: string
    var speed: real
    var alive: bool
    var radius: real
    var beaming: bool
    var rotation: real
    var beamSpeed: real

    /** createPlayer: at the given point, at rest, alive, not beaming. */
    constructor (pos: Vec2)
      ensures x == pos.x && y == pos.y && vx == 0.0 && vy == 0.0
      ensures speed == 4.0 && radius == 10.0 && rotation == 0.0
      ensures alive && !beaming && beamSpeed == 2.0 && color == "#fff"
    {
      x, y := pos.x, pos.y;
      vx, vy := 0.0, 0.0;
      speed := 4.0;
      radius := 10.0;
      rotation := 0.0;
      alive := true;
      beamSpeed := 2.0;
      color := "#fff";
      beaming := false;
    }

    /** The ship's moving part. */
    function State(): Motion
      reads this
    {
      Motion(x, y, vx, vy)
    }
  }

  /**
   * One frame of updatePlayer: unless the beam is on the keys steer, then
   * the ship moves, slows by FRICTION and is kept between the left and
   * right canvas edges and between the top and the floor.
   */
  function PlayerStep(m: Motion, speed: real, radius: real, beaming: bool, held: set<Key>): Motion
  {
    var steered := if beaming then m else Steered(m, speed, held);
    Drive(steered, FRICTION, radius, CANVAS_WIDTH, FLOOR)
  }

  /** updatePlayer: the key tests (unless beaming), the move with friction, then the edge tests. */
  method UpdatePlayer(p: Player, held: set<Key>)
    modifies p`x, p`y, p`vx, p`vy
    ensures p.State() == PlayerStep(old(p.State()), p.speed, p.radius, p.beaming, held)
    ensures 2.0 * p.radius <= FLOOR ==>
      p.radius <= p.x <= CANVAS_WIDTH - p.radius && p.radius <= p.y <= FLOOR - p.radius
    ensures p.alive == old(p.alive) && p.beaming == old(p.beaming) && p.speed == old(p.speed)
    ensures p.radius == old(p.radius) && p.rotation == old(p.rotation) && p.beamSpeed == old(p.beamSpeed)
  {
    if !p.beaming {
      SteerShip(p, held);
    }
    MoveShip(p);
    KeepShipInside(p);
    if 2.0 * p.radius <= FLOOR {
      PlayerStepInBounds(old(p.State()), p.speed, p.radius, p.beaming, held);
    }
  }

  /** The four key tests of updatePlayer; a later test overrides an earlier one. */
  method SteerShip(p: Player, held: set<Key>)
    modifies p`vx, p`vy
    ensures p.State() == Steered(old(p.State()), p.speed, held)
  {
    if Up in held || W in held { p.vy := -p.speed; }
    if Down in held || S in held { p.vy := p.speed; }
    if Left in held || A in held { p.vx := -p.speed; }
    if Right in held || D in held { p.vx := p.speed; }
  }

  /** Move by the velocity, then apply FRICTION to it. */
  method MoveShip(p: Player)
    modifies p`x, p`y, p`vx, p`vy
    ensures p.State() == Move(old(p.State()), FRICTION)
  {
    p.x := p.x + p.vx;
    p.y := p.y + p.vy;
    p.vx := p.vx * FRICTION;
    p.vy := p.vy * FRICTION;
  }

  /** The edge tests of updatePlayer in their order: left, top, floor, right. */
  method KeepShipInside(p: Player)
    modifies p`x, p`y
    ensures p.x == Confine(old(p.x), p.radius, CANVAS_WIDTH) && p.y == Confine(old(p.y), p.radius, FLOOR)
  {
    if p.x - p.radius <= 0.0 { p.x := p.radius; }
    if p.y - p.radius <= 0.0 { p.y := p.radius; }
    if p.y + p.radius >= FLOOR { p.y := FLOOR - p.radius; }
    if p.x + p.radius >= CANVAS_WIDTH { p.x := CANVAS_WIDTH - p.radius; }
  }

  /** After a frame the ship's disc lies on the canvas and above the floor. */
  lemma PlayerStepInBounds(m: Motion, speed: real, radius: real, beaming: bool, held: set<Key>)
    requires 2.0 * radius <= FLOOR
    ensures var n := PlayerStep(m, speed, radius, beaming, held);
      radius <= n.x <= CANVAS_WIDTH - radius && radius <= n.y <= FLOOR - radius
  {
    var steered := if beaming then m else Steered(m, speed, held);
    DriveBounds(steered, FRICTION, radius, CANVAS_WIDTH, FLOOR);
  }

  /** While the beam is on, the keys make no difference and the velocity only decays by FRICTION. */
  lemma PlayerStepBeamLock(m: Motion, speed: real, radius: real, held1: set<Key>, held2: set<Key>)
    ensures PlayerStep(m, speed, radius, true, held1) == PlayerStep(m, speed, radius, true, held2)
    ensures var n := PlayerStep(m, speed, radius, true, held1);
      n.vx == m.vx * FRICTION && n.vy == m.vy * FRICTION
  {
  }

  /**
   * With the beam off, down/S beats up/W and right/D beats left/A: the
   * key tested last sets the velocity, which then decays once by FRICTION.
   */
  lemma PlayerStepKeyPriority(m: Motion, speed: real, radius: real, held: set<Key>)
    ensures var n := PlayerStep(m, speed, radius, false, held);
      ((Down in held || S in held) ==> n.vy == speed * FRICTION) &&
      ((Up in held || W in held) && Down !in held && S !in held ==> n.vy == -speed * FRICTION) &&
      ((Right in held || D in held) ==> n.vx == speed * FRICTION) &&
      ((Left in held || A in held) && Right !in held && D !in held ==> n.vx == -speed * FRICTION)
  {
    SteeredPriority(m, speed, held);
  }

  /** A ship no faster than its speed on either axis stays so. */
  lemma PlayerStepWithinSpeed(m: Motion, speed: real, radius: real, beaming: bool, held: set<Key>)
    requires -speed <= m.vx <= speed && -speed <= m.vy <= speed
    ensures var n := PlayerStep(m, speed, radius, beaming, held);
      -speed <= n.vx <= speed && -speed <= n.vy <= speed
  {
    var steered := if beaming then m else Steered(m, speed, held);
    SteeredWithinSpeed(m, speed, held);
    FrictionWithinSpeed(steered.vx, FRICTION, speed);
    FrictionWithinSpeed(steered.vy, FRICTION, speed);
  }

  /**
   * The ship moves by its velocity before friction — the new velocity
   * divided by FRICTION — whenever no edge stops it.
   */
  lemma PlayerStepAdvances(m: Motion, speed: real, radius: real, beaming: bool, held: set<Key>)
    ensures var n := PlayerStep(m, speed, radius, beaming, held);
      (radius < m.x + n.vx / FRICTION < CANVAS_WIDTH - radius ==> n.x == m.x + n.vx / FRICTION) &&
      (radius < m.y + n.vy / FRICTION < FLOOR - radius ==> n.y == m.y + n.vy / FRICTION)
  {
    var steered := if beaming then m else Steered(m, speed, held);
    DriveAdvances(steered, FRICTION, radius, CANVAS_WIDTH, FLOOR);
  }
}
