/**
 * createHills of src/hills.ts: the skyline of the background hills. It starts
 * one random horizontal step left of the canvas and keeps adding points, each
 * a random horizontal step further right at a random height, until a point
 * reaches the right edge of the canvas.
 *
 * Every Math.random() call inside sample comes from a stream of draws: point i
 * takes its horizontal step from draw 2i and its height from draw 2i + 1, the
 * order in which the source makes the calls.
 */
module Hills {
  import opened Types
  import opened JsMath
  import opened Utils
  import opened Constants

  /** Heights above the floor line (negative is up). */
  const VERTICAL_STEPS: seq<real> := [-32.0, -96.0, -64.0, -128.0, -160.0, -196.0]
  const HORIZONTAL_STEPS: seq<real> := [32.0, 64.0, 96.0]

  /** sample(steps) on a list that is never empty. */
  function Pick(steps: seq<real>, r: real): real
    requires IsRandom(r) && 0 < |steps|
  {
    steps[SampleIndex(|steps|, r)]
  }

  /** Pick is sample on a non-empty list, so it picks an element of the list. */
  lemma PickIsSample(steps: seq<real>, r: real)
    requires IsRandom(r) && 0 < |steps|
    ensures Sample(steps, r) == Some(Pick(steps, r))
    ensures Pick(steps, r) in steps
  {
  }

  /** The step of point i: sample(horizontal) on draw 2i. */
  ghost function StepDraws(random: nat -> real, horizontal: seq<real>): (hs: nat -> real)
    requires IsRandomStream(random) && 0 < |horizontal|
  {
    (i: nat) => Pick(horizontal, random(2 * i))
  }

  /** The height of point i: sample(vertical) on draw 2i + 1. */
  ghost function HeightDraws(random: nat -> real, vertical: seq<real>): (vs: nat -> real)
    requires IsRandomStream(random) && 0 < |vertical|
  {
    (i: nat) => Pick(vertical, random(2 * i + 1))
  }

  /** Every sampled step comes from the step list. */
  lemma StepsFromList(random: nat -> real, horizontal: seq<real>)
    requires IsRandomStream(random) && 0 < |horizontal|
    ensures forall i: nat :: StepDraws(random, horizontal)(i) in horizontal
  {
    forall i: nat
      ensures StepDraws(random, horizontal)(i) in horizontal
    {
      PickIsSample(horizontal, random(2 * i));
    }
  }

  /** Every sampled height comes from the height list. */
  lemma HeightsFromList(random: nat -> real, vertical: seq<real>)
    requires IsRandomStream(random) && 0 < |vertical|
    ensures forall i: nat :: HeightDraws(random, vertical)(i) in vertical
  {
    forall i: nat
      ensures HeightDraws(random, vertical)(i) in vertical
    {
      PickIsSample(vertical, random(2 * i + 1));
    }
  }

  /** The x coordinate of point i: one step left of 0, then i steps right. */
  ghost function XAt(hs: nat -> real, i: nat): real {
    if i == 0 then -hs(0) else XAt(hs, i - 1) + hs(i)
  }

  /** hills holds the first |hills| points of the skyline with steps hs and heights vs. */
  ghost predicate Drawn(hills: seq<Vec2>, hs: nat -> real, vs: nat -> real) {
    forall i :: 0 <= i < |hills| ==> hills[i] == Vec2(XAt(hs, i), vs(i))
  }

  /** Horizontal steps of 32 to 96 pixels, as HORIZONTAL_STEPS has. */
  ghost predicate StepList(horizontal: seq<real>) {
    0 < |horizontal| && forall k :: 0 <= k < |horizontal| ==> 32.0 <= horizontal[k] <= 96.0
  }

  /**
   * The loop of createHills over the step lists horizontal and vertical: start
   * one sampled step left of 0 and add points until one is past the right edge.
   */
  method DrawHills(random: nat -> real, horizontal: seq<real>, vertical: seq<real>) returns (hills: seq<Vec2>)
    requires IsRandomStream(random) && StepList(horizontal) && 0 < |vertical|
    ensures 0 < |hills| && Drawn(hills, StepDraws(random, horizontal), HeightDraws(random, vertical))
    ensures forall i :: 0 <= i < |hills| - 1 ==> hills[i].x < CANVAS_WIDTH
    ensures CANVAS_WIDTH <= hills[|hills| - 1].x
  {
    ghost var hs := StepDraws(random, horizontal);
    ghost var vs := HeightDraws(random, vertical);
    var startX := -Pick(horizontal, random(0));
    var progress := startX;
    hills := [Vec2(startX, Pick(vertical, random(1)))];
    while progress < CANVAS_WIDTH
      invariant 0 < |hills| && Drawn(hills, hs, vs)
      invariant progress == hills[|hills| - 1].x
      invariant forall i :: 0 <= i < |hills| - 1 ==> hills[i].x < CANVAS_WIDTH
      decreases 24 - |hills|
    {
      var n := |hills|;
      StepsBelowEdge(random, horizontal, n - 1);
      var step := Pick(horizontal, random(2 * n));
      var height := Pick(vertical, random(2 * n + 1));
      assert step == hs(n) && height == vs(n);
      DrawnNext(hills, hs, vs);
      LeftOfEdgeNext(hills, Vec2(progress + step, height));
      progress := progress + step;
      hills := hills + [Vec2(progress, height)];
    }
  }

  /** The next point, step n right of the last at height n, extends a drawn skyline. */
  lemma DrawnNext(hills: seq<Vec2>, hs: nat -> real, vs: nat -> real)
    requires 0 < |hills| && Drawn(hills, hs, vs)
    ensures XAt(hs, |hills|) == hills[|hills| - 1].x + hs(|hills|)
    ensures Drawn(hills + [Vec2(XAt(hs, |hills|), vs(|hills|))], hs, vs)
  {
  }

  /** Appending to points all left of the edge keeps every point but the new last one left of it. */
  lemma LeftOfEdgeNext(hills: seq<Vec2>, p: Vec2)
    requires forall i :: 0 <= i < |hills| ==> hills[i].x < CANVAS_WIDTH
    ensures forall i :: 0 <= i < |hills| ==> (hills + [p])[i].x < CANVAS_WIDTH
  {
  }

  /** createHills(): the skyline drawn with the module's step lists. */
  method CreateHills(random: nat -> real) returns (hills: seq<Vec2>)
    requires IsRandomStream(random)
    ensures 0 < |hills| && Drawn(hills, StepDraws(random, HORIZONTAL_STEPS), HeightDraws(random, VERTICAL_STEPS))
    ensures forall i :: 0 <= i < |hills| - 1 ==> hills[i].x < CANVAS_WIDTH
    ensures CANVAS_WIDTH <= hills[|hills| - 1].x
    ensures Skyline(hills, HORIZONTAL_STEPS, VERTICAL_STEPS)
  {
    hills := DrawHills(random, HORIZONTAL_STEPS, VERTICAL_STEPS);
    DrawnSkyline(random, HORIZONTAL_STEPS, VERTICAL_STEPS, hills);
  }

  /** Every step is 32 to 96 pixels, so point k lies between -96 + 32k and -32 + 96k. */
  lemma {:induction false} XAtBounds(hs: nat -> real, horizontal: seq<real>, k: nat)
    requires StepList(horizontal) && forall i: nat :: hs(i) in horizontal
    ensures (-96 + 32 * k) as real <= XAt(hs, k) <= (-32 + 96 * k) as real
  {
    assert hs(k) in horizontal;
    if k > 0 {
      XAtBounds(hs, horizontal, k - 1);
    }
  }

  /** Every step is positive, so the x coordinates strictly increase. */
  lemma {:induction false} XAtIncreasing(hs: nat -> real, horizontal: seq<real>, i: nat, j: nat)
    requires StepList(horizontal) && (forall i: nat :: hs(i) in horizontal) && i < j
    ensures XAt(hs, i) < XAt(hs, j)
  {
    assert hs(j) in horizontal;
    if i < j - 1 {
      XAtIncreasing(hs, horizontal, i, j - 1);
    }
  }

  /** While point k is left of the right edge, k is at most 22. */
  lemma StepsBelowEdge(random: nat -> real, horizontal: seq<real>, k: nat)
    requires IsRandomStream(random) && StepList(horizontal)
    requires XAt(StepDraws(random, horizontal), k) < CANVAS_WIDTH
    ensures k < 23
  {
    StepsFromList(random, horizontal);
    XAtBounds(StepDraws(random, horizontal), horizontal, k);
  }

  /** The shape every finished skyline has, whatever the draws were. */
  ghost predicate Skyline(hills: seq<Vec2>, horizontal: seq<real>, vertical: seq<real>) {
    && 8 <= |hills| <= 24
    && -hills[0].x in horizontal
    && (forall i :: 0 <= i < |hills| ==> hills[i].y in vertical)
    && (forall i :: 0 < i < |hills| ==> hills[i].x - hills[i - 1].x in horizontal)
    && (forall i, j :: 0 <= i < j < |hills| ==> hills[i].x < hills[j].x)
  }

  /** Drawn points, the last of them the first past the right edge, have the skyline's shape. */
  lemma DrawnSkyline(random: nat -> real, horizontal: seq<real>, vertical: seq<real>, hills: seq<Vec2>)
    requires IsRandomStream(random) && StepList(horizontal) && 0 < |vertical| && 0 < |hills|
    requires Drawn(hills, StepDraws(random, horizontal), HeightDraws(random, vertical))
    requires forall i :: 0 <= i < |hills| - 1 ==> hills[i].x < CANVAS_WIDTH
    requires CANVAS_WIDTH <= hills[|hills| - 1].x
    ensures Skyline(hills, horizontal, vertical)
  {
    DrawnLength(random, horizontal, hills, HeightDraws(random, vertical));
    DrawnSteps(random, horizontal, hills, HeightDraws(random, vertical));
    DrawnHeights(random, vertical, hills, StepDraws(random, horizontal));
    DrawnIncreasing(random, horizontal, hills, HeightDraws(random, vertical));
  }

  /** Steps of 32 to 96 pixels reach the right edge after 8 to 24 points. */
  lemma DrawnLength(random: nat -> real, horizontal: seq<real>, hills: seq<Vec2>, vs: nat -> real)
    requires IsRandomStream(random) && StepList(horizontal) && 0 < |hills|
    requires Drawn(hills, StepDraws(random, horizontal), vs)
    requires 2 <= |hills| ==> hills[|hills| - 2].x < CANVAS_WIDTH
    requires CANVAS_WIDTH <= hills[|hills| - 1].x
    ensures 8 <= |hills| <= 24
  {
    var hs := StepDraws(random, horizontal);
    var n := |hills|;
    StepsFromList(random, horizontal);
    XAtBounds(hs, horizontal, n - 1);
    if 2 <= n {
      XAtBounds(hs, horizontal, n - 2);
    }
  }

  /** The first point is one sampled step left of 0, and each next point one sampled step right. */
  lemma DrawnSteps(random: nat -> real, horizontal: seq<real>, hills: seq<Vec2>, vs: nat -> real)
    requires IsRandomStream(random) && 0 < |horizontal| && 0 < |hills|
    requires Drawn(hills, StepDraws(random, horizontal), vs)
    ensures -hills[0].x in horizontal
    ensures forall i :: 0 < i < |hills| ==> hills[i].x - hills[i - 1].x in horizontal
  {
    var hs := StepDraws(random, horizontal);
    StepsFromList(random, horizontal);
    forall i | 0 < i < |hills|
      ensures hills[i].x - hills[i - 1].x in horizontal
    {
      assert hills[i].x - hills[i - 1].x == hs(i);
    }
    assert -hills[0].x == hs(0);
  }

  /** Every height is a sampled vertical step. */
  lemma DrawnHeights(random: nat -> real, vertical: seq<real>, hills: seq<Vec2>, hs: nat -> real)
    requires IsRandomStream(random) && 0 < |vertical|
    requires Drawn(hills, hs, HeightDraws(random, vertical))
    ensures forall i :: 0 <= i < |hills| ==> hills[i].y in vertical
  {
    HeightsFromList(random, vertical);
  }

  /** The points run strictly left to right. */
  lemma DrawnIncreasing(random: nat -> real, horizontal: seq<real>, hills: seq<Vec2>, vs: nat -> real)
    requires IsRandomStream(random) && StepList(horizontal)
    requires Drawn(hills, StepDraws(random, horizontal), vs)
    ensures forall i, j :: 0 <= i < j < |hills| ==> hills[i].x < hills[j].x
  {
    var hs := StepDraws(random, horizontal);
    StepsFromList(random, horizontal);
    forall i, j | 0 <= i < j < |hills|
      ensures hills[i].x < hills[j].x
    {
      XAtIncreasing(hs, horizontal, i, j);
    }
  }
}
