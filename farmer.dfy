/**
 * The farmers of src/farmer.ts: createFarmer becomes the class's
 * constructor and updateFarmer a method that changes the farmer's
 * position, scale and tilt in place, specified by the function FarmerStep.
 */
module Farmer {
  import opened Types
  import opened Constants
  import opened Walkers
  import opened JsMath

  class Farmer {
    var x: real
    var y: real
    var vx: real
    var vy: real
    var scale: Vec2
    var speed: real
    var width: real
    var height: real
    var rotation: real
    var skinColor: string
    /** The period of the farmer's firing timer, in milliseconds. */
    var fireRateMs: int
    var clothesColor: string
    /** The period of the farmer's animation timer, in milliseconds. */
    var animationMs: int

    /** createFarmer: walking towards the middle of the canvas at 0.5 pixels per frame. */
    constructor (pos: Vec2)
      ensures x == pos.x && y == pos.y && vy == 0.0 && speed == 0.5
      ensures vx == if pos.x > CANVAS_WIDTH / 2.0 then -0.5 else 0.5
      ensures width == 10.0 && height == 25.0 && rotation == 0.0 && scale == Vec2(1.0, 1.0)
      ensures skinColor == "white" && clothesColor == "gray" && fireRateMs == 1500 && animationMs == 300
    {
      var walk := 0.5;
      x, y := pos.x, pos.y;
      vy := 0.0;
      speed := walk;
      width, height := 10.0, 25.0;
      rotation := 0.0;
      scale := Vec2(1.0, 1.0);
      skinColor := "white";
      clothesColor := "gray";
      fireRateMs := 1500;
      animationMs := 300;
      vx := if pos.x > CANVAS_WIDTH / 2.0 then -walk else walk;
    }

    function State(): Body
      reads this
    {
      Body(x, y, vx, vy, scale, rotation)
    }
  }

  /** A farmer walking left is mirrored (scale.x = -1), the opposite test from the cow's. */
  function Turn(b: Body): Body
  {
    if b.vx < 0.0 then b.(scale := b.scale.(x := -1.0)) else b
  }

  /** A farmer below the ground line is put back on it; there is no gravity and no change of speed. */
  function Stand(b: Body, ground: real): Body
  {
    if b.y > ground then b.(y := ground) else b
  }

  /** One frame of updateFarmer for a farmer of the given height. */
  function FarmerStep(b: Body, height: real, animationDue: bool): Body
  {
    var faced := Turn(Walk(b));
    var animated := if animationDue then Animate(faced) else faced;
    Stand(animated, FLOOR - height)
  }

  /** updateFarmer; `animationDue` is what the animation timer's hasPassed() answers this frame. */
  method UpdateFarmer(farmer: Farmer, animationDue: bool)
    modifies farmer`x, farmer`y, farmer`scale, farmer`rotation
    ensures farmer.State() == FarmerStep(old(farmer.State()), farmer.height, animationDue)
    ensures farmer.y <= FLOOR - farmer.height
    ensures farmer.vx == old(farmer.vx) && farmer.vy == old(farmer.vy)
  {
    WalkFarmer(farmer);
    if animationDue {
      AnimateFarmer(farmer);
    }
    if farmer.y > FLOOR - farmer.height {
      farmer.y := FLOOR - farmer.height;
    }
  }

  /** Move by the velocity and face left when walking left. */
  method WalkFarmer(farmer: Farmer)
    modifies farmer`x, farmer`y, farmer`scale
    ensures farmer.State() == Turn(Walk(old(farmer.State())))
  {
    farmer.x := farmer.x + farmer.vx;
    farmer.y := farmer.y + farmer.vy;
    if farmer.vx < 0.0 {
      farmer.scale := farmer.scale.(x := -1.0);
    }
  }

  /** One tick of the walk animation. */
  method AnimateFarmer(farmer: Farmer)
    modifies farmer`rotation, farmer`scale
    ensures farmer.State() == Animate(old(farmer.State()))
  {
    farmer.rotation := if farmer.rotation < 0.0 then -0.02 else 0.0;
    farmer.scale := farmer.scale.(y := if farmer.scale.y == 1.0 then 1.1 else 1.0);
  }

  /**
   * A farmer moves by its velocity, which never changes, stops at its
   * ground line, and is mirrored exactly when walking left (or already
   * mirrored); without a timer tick its tilt and stretch stay.
   */
  lemma FarmerStepWalks(b: Body, height: real, animationDue: bool)
    ensures var n := FarmerStep(b, height, animationDue);
      n.x == b.x + b.vx && n.vx == b.vx && n.vy == b.vy &&
      n.y == (if b.y + b.vy > FLOOR - height then FLOOR - height else b.y + b.vy) &&
      n.y <= FLOOR - height &&
      n.scale.x == (if b.vx < 0.0 then -1.0 else b.scale.x) &&
      (!animationDue ==> n.rotation == b.rotation && n.scale.y == b.scale.y)
  {
  }

  /** The farmer after frames with the given timer answers. */
  function FarmerFrames(b: Body, height: real, dues: seq<bool>): Body
  {
    if |dues| == 0 then b else FarmerStep(FarmerFrames(b, height, dues[..|dues| - 1]), height, dues[|dues| - 1])
  }

  /** A level farmer (upright, stretch 1 or 1.1, as created) stays level however often the timer fires. */
  lemma {:induction false} FarmerStaysLevel(b: Body, height: real, dues: seq<bool>)
    requires Level(b)
    ensures Level(FarmerFrames(b, height, dues))
  {
    if |dues| > 0 {
      var before := FarmerFrames(b, height, dues[..|dues| - 1]);
      FarmerStaysLevel(b, height, dues[..|dues| - 1]);
      AnimateKeepsLevel(Turn(Walk(before)));
    }
  }

  /** With no gravity a farmer keeps its velocity and covers n*vx in n frames. */
  lemma {:induction false} FarmerWalksSteadily(b: Body, height: real, dues: seq<bool>)
    ensures var n := FarmerFrames(b, height, dues);
      n.vx == b.vx && n.vy == b.vy && n.x == b.x + |dues| as real * b.vx
  {
    if |dues| > 0 {
      var earlier := dues[..|dues| - 1];
      FarmerWalksSteadily(b, height, earlier);
      FarmerStepWalks(FarmerFrames(b, height, earlier), height, dues[|dues| - 1]);
      OneMoreFrame(|earlier|, b.vx);
      assert |earlier| + 1 == |dues|;
    }
  }
}
