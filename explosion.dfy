/**
 * The explosions of src/explosion.ts: createExplosion becomes the class's
 * constructor; generateEmbers a method with the source's loop, specified
 * by the function Ring; updateExplosion a method that generates the embers
 * once, moves each of them and fades the explosion out.
 */
module Explosion {
  import opened Types
  import opened JsMath
  import opened Utils

  /** A spark flying out of an explosion. */
  datatype Ember = Ember(x: real, y: real, alpha: real, vx: real, vy: real, radius: real)

  class Explosion {
    var x: real
    var y: real
    var vx: real
    var vy: real
    var alpha: real
    var count: int
    var radius: real
    var embers: seq<Ember>
    var color: string
    var ended: bool
    var emberRadius: real

    /** createExplosion: opaque, eight embers to come, none yet, not ended. */
    constructor (pos: Vec2)
      ensures x == pos.x && y == pos.y && vx == 0.0 && vy == 0.0
      ensures alpha == 1.0 && count == 8 && radius == 1.0 && embers == []
      ensures color == "red" && !ended && emberRadius == 3.0
    {
      x, y := pos.x, pos.y;
      vx, vy := 0.0, 0.0;
      alpha := 1.0;
      count := 8;
      radius := 1.0;
      embers := [];
      color := "red";
      ended := false;
      emberRadius := 3.0;
    }
  }

  /** Ember i of n: at the centre, opaque, heading at angle 2*PI*i/n with speed `speed`. */
  function RingEmber(x: real, y: real, speed: real, emberRadius: real, n: int, i: nat,
                     cos: real -> real, sin: real -> real): Ember
    requires 0 < n
  {
    var angle := (PI * 2.0 * i as real) / n as real;
    Ember(x, y, 1.0, speed * cos(angle), speed * sin(angle), emberRadius)
  }

  /** The embers generateEmbers makes: n of them, none when n is not positive. */
  function Ring(x: real, y: real, speed: real, emberRadius: real, n: int,
                cos: real -> real, sin: real -> real): seq<Ember>
  {
    if n <= 0 then [] else seq(n, (i: int) requires 0 <= i < n => RingEmber(x, y, speed, emberRadius, n, i, cos, sin))
  }

  /**
   * generateEmbers(e): count embers at the explosion's centre, opaque,
   * the size of e.emberRadius, heading out in evenly spaced directions.
   */
  method GenerateEmbers(e: Explosion, cos: real -> real, sin: real -> real) returns (res: seq<Ember>)
    ensures res == Ring(e.x, e.y, e.radius, e.emberRadius, e.count, cos, sin)
    ensures |res| == if e.count <= 0 then 0 else e.count
    ensures forall i :: 0 <= i < |res| ==>
      res[i].x == e.x && res[i].y == e.y && res[i].alpha == 1.0 && res[i].radius == e.emberRadius
  {
    res := [];
    var embers := e.count;
    var radius := e.radius;
    var i := 0;
    while i < embers
      invariant 0 <= i <= (if embers <= 0 then 0 else embers) && |res| == i
      invariant 0 < embers ==> forall j :: 0 <= j < i ==> res[j] == RingEmber(e.x, e.y, radius, e.emberRadius, embers, j, cos, sin)
    {
      var angle := (PI * 2.0 * i as real) / embers as real;
      var ember := Ember(e.x, e.y, 1.0, radius * cos(angle), radius * sin(angle), e.emberRadius);
      res := res + [ember];
      i := i + 1;
    }
    if 0 < embers {
      ghost var ring := Ring(e.x, e.y, radius, e.emberRadius, embers, cos, sin);
      assert |ring| == embers && forall j :: 0 <= j < embers ==> ring[j] == RingEmber(e.x, e.y, radius, e.emberRadius, embers, j, cos, sin);
      assert res == ring;
    }
  }

  /** An ember after one update: moved by its own velocity. */
  function Drift(m: Ember): Ember
  {
    m.(x := m.x + m.vx, y := m.y + m.vy)
  }

  /** Every ember moved by its own velocity, in order. */
  function Drifted(ms: seq<Ember>): (r: seq<Ember>)
    ensures |r| == |ms|
  {
    seq(|ms|, (i: int) requires 0 <= i < |ms| => Drift(ms[i]))
  }

  /** The fade of an explosion: its alpha and whether it has ended. */
  datatype Fade = Fade(alpha: real, ended: bool)

  /** While alpha is non-zero it drops by 0.03, and the explosion ends once it is negative. */
  function FadeStep(f: Fade): Fade
  {
    if f.alpha != 0.0 then
      var alpha := f.alpha - 0.03;
      Fade(alpha, if alpha < 0.0 then true else f.ended)
    else f
  }

  /**
   * updateExplosion, without the drawing: embers are generated when there
   * are none, every ember moves, and the explosion fades.
   */
  method UpdateExplosion(e: Explosion, cos: real -> real, sin: real -> real)
    modifies e`embers, e`alpha, e`ended
    ensures e.embers == Drifted(if |old(e.embers)| == 0 then Ring(e.x, e.y, e.radius, e.emberRadius, e.count, cos, sin) else old(e.embers))
    ensures Fade(e.alpha, e.ended) == FadeStep(Fade(old(e.alpha), old(e.ended)))
  {
    if |e.embers| == 0 {
      e.embers := GenerateEmbers(e, cos, sin);
    }
    DriftEmbers(e);
    if e.alpha != 0.0 {
      e.alpha := e.alpha - 0.03;
      if e.alpha < 0.0 {
        e.ended := true;
      }
    }
  }

  /** The ember loop of updateExplosion: each ember moves by its own velocity, in place. */
  method DriftEmbers(e: Explosion)
    modifies e`embers
    ensures e.embers == Drifted(old(e.embers))
  {
    var i := 0;
    while i < |e.embers|
      invariant 0 <= i <= |e.embers| == |old(e.embers)|
      invariant forall j :: 0 <= j < i ==> e.embers[j] == Drift(old(e.embers)[j])
      invariant forall j :: i <= j < |e.embers| ==> e.embers[j] == old(e.embers)[j]
    {
      e.embers := e.embers[i := Drift(e.embers[i])];
      i := i + 1;
    }
  }

  /**
   * Embers are made only while there are none: a non-empty list keeps its
   * length, an empty one gets count embers (none if count is not positive).
   */
  lemma EmbersGeneratedOnce(ms: seq<Ember>, x: real, y: real, speed: real, emberRadius: real, count: int,
                            cos: real -> real, sin: real -> real)
    ensures var next := Drifted(if |ms| == 0 then Ring(x, y, speed, emberRadius, count, cos, sin) else ms);
      (|ms| > 0 ==> |next| == |ms|) &&
      (|ms| == 0 ==> |next| == if count <= 0 then 0 else count)
  {
  }

  /** Each ember of an update is the old one moved by its own (vx, vy); nothing else about it changes. */
  lemma DriftedMoves(ms: seq<Ember>, i: nat)
    requires i < |ms|
    ensures var m := Drifted(ms)[i];
      m.x == ms[i].x + ms[i].vx && m.y == ms[i].y + ms[i].vy &&
      m.vx == ms[i].vx && m.vy == ms[i].vy && m.alpha == ms[i].alpha && m.radius == ms[i].radius
  {
  }

  /** Once ended, an explosion stays ended; alpha never rises. */
  lemma FadeStepMonotone(f: Fade)
    ensures f.ended ==> FadeStep(f).ended
    ensures FadeStep(f).alpha <= f.alpha
  {
  }

  /** The fade after n updates. */
  function Fades(f: Fade, n: nat): Fade
  {
    if n == 0 then f else FadeStep(Fades(f, n - 1))
  }

  /**
   * From a fresh explosion (alpha 1, not ended), n updates leave alpha at
   * 1 - 0.03*n, and the explosion has ended exactly when n >= 34: alpha
   * never hits 0 exactly, and first drops below 0 on the 34th update.
   */
  lemma {:induction false} FadeCountdown(n: nat)
    ensures Fades(Fade(1.0, false), n) == Fade(1.0 - 0.03 * n as real, n >= 34)
  {
    if n > 0 {
      FadeCountdown(n - 1);
      var k := (n - 1) as real;
      // alpha was 1 - 0.03*k, never exactly 0: at most 0.99 below 1 up to k = 33, at least 1.02 from k = 34
      if n - 1 <= 33 {
        assert 0.03 * k <= 0.99;
      } else {
        assert 0.03 * k >= 1.02;
      }
    }
  }

  /**
   * With Math.cos and Math.sin on the unit circle, every generated ember
   * flies out with speed exactly e.radius.
   */
  lemma RingSpeed(x: real, y: real, speed: real, emberRadius: real, n: int,
                  cos: real -> real, sin: real -> real, i: nat)
    requires IsUnitCircle(cos, sin)
    requires 0 <= i < n
    ensures var m := Ring(x, y, speed, emberRadius, n, cos, sin)[i];
      SqLen(Vec2(m.vx, m.vy)) == speed * speed
  {
    var angle := (PI * 2.0 * i as real) / n as real;
    var c, s := cos(angle), sin(angle);
    assert c * c + s * s == 1.0;
    assert (speed * c) * (speed * c) + (speed * s) * (speed * s) == speed * speed * (c * c + s * s);
  }
}
