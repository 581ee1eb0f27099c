/**
 * The background star field of src/stars.ts: a class holding the stars,
 * its depth and size settings and the camera position. Its constructor
 * and initStars draw every star's coordinates with getRandomInt.
 */
module Stars {
  import opened Types
  import opened Constants
  import opened JsMath
  import opened Utils

  /** Depth of the nearest star; a star is closer if its depth is lower. */
  const MIN_DEPTH: real := 50.0
  /** Depth of the farthest star. */
  const MAX_DEPTH: real := 500.0

  class Stars {
    var stars: seq<Star>
    const minDepth: real := MIN_DEPTH
    const maxDepth: real := MAX_DEPTH
    /** The radius of the nearest star. */
    const maxSize: real := 3.0
    /** Radius gained per unit of depth. */
    const step: real := maxSize / (maxDepth - minDepth)
    const centerX: real := CANVAS_WIDTH / 2.0
    const centerY: real := CANVAS_HEIGHT / 2.0
    var camX: real
    var camY: real

    /** new Stars(count): count stars drawn from `random`, the camera at the centre (0, 0). */
    constructor (count: int, random: nat -> real)
      requires IsRandomStream(random)
      ensures stars == Sky(count, random) && camX == 0.0 && camY == 0.0
    {
      stars := [];
      camX, camY := 0.0, 0.0;
      new;
      InitStars(count, random);
    }

    /** initStars(starCount): append starCount new stars, each from three draws. */
    method InitStars(starCount: int, random: nat -> real)
      requires IsRandomStream(random)
      modifies this`stars
      ensures stars == old(stars) + Sky(starCount, random)
    {
      var i := 0;
      while i < starCount
        invariant 0 <= i <= (if starCount <= 0 then 0 else starCount)
        invariant stars == old(stars) + Sky(i, random)
      {
        var star := SkyStar(i, random);
        SkyGrows(i, random);
        stars := stars + [star];
        i := i + 1;
      }
      assert Sky(i, random) == Sky(starCount, random);
    }

    /** makeCamFollow(p): the camera moves to p; the stars stay. */
    method MakeCamFollow(p: Vec2)
      modifies this`camX, this`camY
      ensures camX == p.x && camY == p.y && stars == old(stars)
    {
      camX := p.x;
      camY := p.y;
    }
  }

  /**
   * Star i of a batch, as one pass of initStars' loop draws it: x, y and
   * depth from the draws 3i, 3i+1 and 3i+2.
   */
  function SkyStar(i: nat, random: nat -> real): Star
    requires IsRandomStream(random)
  {
    Star(GetRandomInt(-CANVAS_WIDTH * 10.0, CANVAS_WIDTH * 10.0, random(3 * i)) as real,
         GetRandomInt(-CANVAS_HEIGHT * 10.0, CANVAS_HEIGHT * 10.0, random(3 * i + 1)) as real,
         GetRandomInt(MIN_DEPTH, MAX_DEPTH, random(3 * i + 2)) as real)
  }

  /** A batch of n stars (none if n is not positive). */
  function Sky(n: int, random: nat -> real): (s: seq<Star>)
    requires IsRandomStream(random)
    ensures |s| == if n <= 0 then 0 else n
  {
    if n <= 0 then [] else Sky(n - 1, random) + [SkyStar(n - 1, random)]
  }

  lemma SkyGrows(i: nat, random: nat -> real)
    requires IsRandomStream(random)
    ensures Sky(i + 1, random) == Sky(i, random) + [SkyStar(i, random)]
  {
  }

  /** The depth step is 3/450 of a pixel of radius per unit of depth. */
  lemma DepthStep(field: Stars)
    ensures field.step == 3.0 / 450.0
  {
  }

  /**
   * Every star of a batch lies on whole-pixel coordinates in a field ten
   * canvases wide and high around the centre, at a depth in [50, 500).
   */
  lemma {:induction false} SkyInField(n: int, random: nat -> real)
    requires IsRandomStream(random)
    ensures forall s :: s in Sky(n, random) ==>
      -6400.0 <= s.x < 6400.0 && -4800.0 <= s.y < 4800.0 && 50.0 <= s.z < 500.0 &&
      s.x == s.x.Floor as real && s.y == s.y.Floor as real && s.z == s.z.Floor as real
  {
    if n > 0 {
      SkyInField(n - 1, random);
      var i: nat := n - 1;
      assert IsRandom(random(3 * i)) && IsRandom(random(3 * i + 1)) && IsRandom(random(3 * i + 2));
    }
  }
}
