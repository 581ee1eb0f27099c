/**
 * The cows of src/cow.ts: createCow becomes the class's constructor and
 * updateCow a method that changes the cow's position, vertical speed,
 * scale and tilt in place, specified by the function CowStep.
 */
module Cow {
  import opened Types
  import opened Constants
  import opened Walkers

  class Cow {
    var x: real
    var y: real
    var vx: real
    var vy: real
    var scale: Vec2
    var speed: real
    var active: bool
    var color: string
    var width: real
    var height: real
    var rotation: real
    var isBeingAbducted: bool
    /** The period of the cow's animation timer, in milliseconds. */
    var animationMs: int

    /** createCow: walking towards the middle of the canvas at 0.2 pixels per frame. */
    constructor (pos: Vec2)
      ensures x == pos.x && y == pos.y && vy == 0.0 && speed == 0.2
      ensures vx == if pos.x > CANVAS_WIDTH / 2.0 then -0.2 else 0.2
      ensures width == 20.0 && height == 20.0 && rotation == 0.0 && scale == Vec2(1.0, 1.0)
      ensures active && !isBeingAbducted && color == "#fff" && animationMs == 300
    {
      var walk := 0.2;
      x, y := pos.x, pos.y;
      vy := 0.0;
      speed := walk;
      width, height := 20.0, 20.0;
      rotation := 0.0;
      active := true;
      color := "#fff";
      scale := Vec2(1.0, 1.0);
      isBeingAbducted := false;
      animationMs := 300;
      vx := if pos.x > CANVAS_WIDTH / 2.0 then -walk else walk;
    }

    function State(): Body
      reads this
    {
      Body(x, y, vx, vy, scale, rotation)
    }
  }

  /** A cow walking right is mirrored (scale.x = -1); nothing turns it back. */
  function Turn(b: Body): Body
  {
    if b.vx > 0.0 then b.(scale := b.scale.(x := -1.0)) else b
  }

  /** Landing: a cow below its ground line is put back on it and stops; otherwise gravity pulls. */
  function Fall(b: Body, ground: real): Body
  {
    if b.y > ground then b.(y := ground, vy := 0.0) else b.(vy := b.vy + GRAVITY)
  }

  /**
   * One frame of updateCow for a cow of the given height: a cow in the
   * beam is left alone; otherwise it moves, turns to face right when
   * walking right, animates when the timer fires, and falls or lands.
   */
  function CowStep(b: Body, height: real, abducted: bool, animationDue: bool): Body
  {
    if abducted then b
    else
      var faced := Turn(Walk(b));
      var animated := if animationDue then Animate(faced) else faced;
      Fall(animated, FLOOR - height)
  }

  /** updateCow; `animationDue` is what the animation timer's hasPassed() answers this frame. */
  method UpdateCow(cow: Cow, animationDue: bool)
    modifies cow`x, cow`y, cow`vy, cow`scale, cow`rotation
    ensures cow.State() == CowStep(old(cow.State()), cow.height, cow.isBeingAbducted, animationDue)
    ensures !cow.isBeingAbducted ==> cow.y <= FLOOR - cow.height
    ensures cow.active == old(cow.active) && cow.isBeingAbducted == old(cow.isBeingAbducted)
    ensures cow.width == old(cow.width) && cow.height == old(cow.height) && cow.speed == old(cow.speed)
  {
    if !cow.isBeingAbducted {
      WalkCow(cow);
      if animationDue {
        AnimateCow(cow);
      }
      LandCow(cow);
    }
  }

  /** Move by the velocity and face right when walking right. */
  method WalkCow(cow: Cow)
    modifies cow`x, cow`y, cow`scale
    ensures cow.State() == Turn(Walk(old(cow.State())))
  {
    cow.x := cow.x + cow.vx;
    cow.y := cow.y + cow.vy;
    if cow.vx > 0.0 {
      cow.scale := cow.scale.(x := -1.0);
    }
  }

  /** One tick of the walk animation. */
  method AnimateCow(cow: Cow)
    modifies cow`rotation, cow`scale
    ensures cow.State() == Animate(old(cow.State()))
  {
    cow.rotation := if cow.rotation < 0.0 then -0.02 else 0.0;
    cow.scale := cow.scale.(y := if cow.scale.y == 1.0 then 1.1 else 1.0);
  }

  /** Land on the ground line, or gain GRAVITY of downward speed. */
  method LandCow(cow: Cow)
    modifies cow`y, cow`vy
    ensures cow.State() == Fall(old(cow.State()), FLOOR - cow.height)
  {
    if cow.y > FLOOR - cow.height {
      cow.y := FLOOR - cow.height;
      cow.vy := 0.0;
    } else {
      cow.vy := cow.vy + GRAVITY;
    }
  }

  /** A cow in the beam is not moved, turned, animated or pulled by gravity. */
  lemma CowStepAbducted(b: Body, height: real, animationDue: bool)
    ensures CowStep(b, height, true, animationDue) == b
  {
  }

  /**
   * A free cow walks by its horizontal speed, which never changes; it
   * turns to face right (scale.x = -1) when walking right and is never
   * turned back; without a timer tick its tilt and stretch stay.
   */
  lemma CowStepWalks(b: Body, height: real, animationDue: bool)
    ensures var n := CowStep(b, height, false, animationDue);
      n.x == b.x + b.vx && n.vx == b.vx &&
      n.scale.x == (if b.vx > 0.0 then -1.0 else b.scale.x) &&
      (!animationDue ==> n.rotation == b.rotation && n.scale.y == b.scale.y)
  {
  }

  /**
   * After a free cow's frame it is not below its ground line; it either
   * landed there and stopped, or moved by its vertical speed and gained
   * exactly GRAVITY of it.
   */
  lemma CowStepLands(b: Body, height: real, animationDue: bool)
    ensures var n := CowStep(b, height, false, animationDue);
      n.y <= FLOOR - height &&
      (b.y + b.vy > FLOOR - height ==> n.y == FLOOR - height && n.vy == 0.0) &&
      (b.y + b.vy <= FLOOR - height ==> n.y == b.y + b.vy && n.vy == b.vy + GRAVITY)
  {
  }

  /**
   * A cow standing still on its ground line stays on it, but its
   * vertical speed alternates: GRAVITY after one frame, 0 after two.
   */
  lemma CowGroundedCycle(b: Body, height: real, due1: bool, due2: bool)
    requires b.y == FLOOR - height && b.vy == 0.0
    ensures var n1 := CowStep(b, height, false, due1);
      var n2 := CowStep(n1, height, false, due2);
      n1.y == FLOOR - height && n1.vy == GRAVITY && n2.y == FLOOR - height && n2.vy == 0.0
  {
    var n1 := CowStep(b, height, false, due1);
    assert n1.y == FLOOR - height;
    assert n1.y + n1.vy > FLOOR - height;
  }

  /** The cow after frames with the given timer answers, none of them in the beam. */
  function CowFrames(b: Body, height: real, dues: seq<bool>): Body
  {
    if |dues| == 0 then b else CowStep(CowFrames(b, height, dues[..|dues| - 1]), height, false, dues[|dues| - 1])
  }

  /** A level cow (upright, stretch 1 or 1.1, as created) stays level however often the timer fires. */
  lemma {:induction false} CowStaysLevel(b: Body, height: real, dues: seq<bool>)
    requires Level(b)
    ensures Level(CowFrames(b, height, dues))
  {
    if |dues| > 0 {
      var before := CowFrames(b, height, dues[..|dues| - 1]);
      CowStaysLevel(b, height, dues[..|dues| - 1]);
      AnimateKeepsLevel(Turn(Walk(before)));
    }
  }

  /**
   * Free fall: a cow that starts moving down (vy >= 0) and does not reach
   * its ground line within n frames has, after them, fallen
   * n*vy + GRAVITY*n*(n-1)/2 and gained n*GRAVITY of speed.
   */
  lemma {:induction false} CowFreeFall(b: Body, height: real, dues: seq<bool>)
    requires b.vy >= 0.0
    requires b.y + Fallen(b.vy, |dues|) <= FLOOR - height
    ensures var n := CowFrames(b, height, dues);
      n.y == b.y + Fallen(b.vy, |dues|) && n.vy == b.vy + |dues| as real * GRAVITY
  {
    if |dues| > 0 {
      var k := |dues| - 1;
      FallenStep(b.vy, k);
      CowFreeFall(b, height, dues[..k]);
    }
  }

  /** The distance fallen in n frames from vertical speed vy: n*vy + GRAVITY*n*(n-1)/2. */
  function Fallen(vy: real, n: nat): real
  {
    var k := n as real;
    k * vy + GRAVITY * k * (k - 1.0) / 2.0
  }

  /** One more frame adds the speed reached so far, and never less than the previous total. */
  lemma FallenStep(vy: real, k: nat)
    requires vy >= 0.0
    ensures Fallen(vy, k + 1) == Fallen(vy, k) + (vy + k as real * GRAVITY)
    ensures Fallen(vy, k) <= Fallen(vy, k + 1)
  {
    var r := k as real;
    assert (r + 1.0) * ((r + 1.0) - 1.0) == r * (r - 1.0) + 2.0 * r;
    assert r * GRAVITY >= 0.0;
  }
}
