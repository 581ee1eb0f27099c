/** The geometry and random helpers of src/utils.ts. */
module Utils {
  import opened Types
  import opened JsMath

  /** `undefined` or a value: what indexing a JavaScript array yields. */
  datatype Option<T> = None | Some(value: T)

  /**
   * getRandomInt(min, max): min is rounded up, max down, and a draw r scales
   * into the half-open range between them.
   */
  function GetRandomInt(min: real, max: real, r: real): (n: int)
    requires IsRandom(r)
    ensures Ceil(min) < max.Floor ==> Ceil(min) <= n < max.Floor
    ensures Ceil(min) == max.Floor ==> n == Ceil(min)
    ensures max.Floor < Ceil(min) ==> max.Floor <= n <= Ceil(min)
  {
    var lo := Ceil(min);
    var hi := max.Floor;
    var t := r * (hi - lo) as real;
    ScaledFloor(r, hi - lo);
    FloorShift(t, lo);
    (t + lo as real).Floor
  }

  lemma FloorShift(t: real, k: int)
    ensures (t + k as real).Floor == t.Floor + k
  {
  }

  /** Math.floor of a draw scaled by the whole number d lies between 0 and d, d excluded unless d is 0. */
  lemma ScaledFloor(r: real, d: int)
    requires IsRandom(r)
    ensures 0 < d ==> 0 <= (r * d as real).Floor < d
    ensures d == 0 ==> (r * d as real).Floor == 0
    ensures d < 0 ==> d <= (r * d as real).Floor <= 0
  {
    var t := r * d as real;
    ScaledDraw(r, d as real);
    if d == 0 {
      assert t == 0.0;
    }
  }

  /** A draw in [0, 1) scaled by d lies between 0 (inclusive) and d (exclusive). */
  lemma ScaledDraw(r: real, d: real)
    requires IsRandom(r)
    ensures 0.0 < d ==> 0.0 <= r * d < d
    ensures d <= 0.0 ==> d < r * d <= 0.0 || d == 0.0
  {
    if 0.0 < d {
      assert r * d < 1.0 * d;
    } else if d < 0.0 {
      assert r * d > 1.0 * d;
    }
  }

  /** clamp(n, min, max) = Math.min(Math.max(n, min), max). */
  function Clamp(n: real, min: real, max: real): (c: real)
    ensures c <= max
    ensures min <= max ==> min <= c
    ensures min <= n <= max ==> c == n
    ensures n <= min <= max ==> c == min
    ensures max <= n || max < min ==> c == max
  {
    var atLeast := if n > min then n else min;
    if atLeast < max then atLeast else max
  }

  lemma ClampIdempotent(n: real, min: real, max: real)
    ensures Clamp(Clamp(n, min, max), min, max) == Clamp(n, min, max)
  {
  }

  /** choose(a, b): a when the draw is above one half, otherwise b. */
  function Choose<T>(a: T, b: T, r: real): (c: T)
    requires IsRandom(r)
    ensures c == a || c == b
    ensures r > 0.5 ==> c == a
    ensures r <= 0.5 ==> c == b
  {
    if r > 0.5 then a else b
  }

  /** The index sample picks: Math.floor(r * length). */
  function SampleIndex(length: nat, r: real): (i: nat)
    requires IsRandom(r) && 0 < length
    ensures i < length
  {
    ScaledDraw(r, length as real);
    (r * length as real).Floor
  }

  /** sample(arr): an element of arr, or undefined when arr is empty. */
  function Sample<T>(arr: seq<T>, r: real): (s: Option<T>)
    requires IsRandom(r)
    ensures s.Some? <==> 0 < |arr|
    ensures s.Some? ==> s.value in arr
  {
    if |arr| == 0 then None else Some(arr[SampleIndex(|arr|, r)])
  }

  /** isEven(n) = n % 2 === 0, with JavaScript's truncating remainder. */
  predicate IsEven(n: real) {
    JsRem(n, 2.0) == 0.0
  }

  /** isEven holds exactly when n is twice an integer. */
  lemma IsEvenIffHalfIsInteger(n: real)
    ensures IsEven(n) <==> (n / 2.0).Floor as real == n / 2.0
  {
    var h := n / 2.0;
    assert IsEven(n) <==> Trunc(h) as real == h;
    if 0.0 > h {
      assert Trunc(h) == -((-h).Floor);
      if Trunc(h) as real == h {
        assert (-h).Floor as real == -h;
        assert h.Floor == -((-h).Floor);
      }
      if h.Floor as real == h {
        assert (-h).Floor == -(h.Floor);
      }
    }
  }

  /** On integers, isEven agrees with divisibility by 2. */
  lemma IsEvenOnIntegers(k: int)
    ensures IsEven(k as real) <==> k % 2 == 0
  {
    IsEvenIffHalfIsInteger(k as real);
    var h := k as real / 2.0;
    if k % 2 == 0 {
      assert h == (k / 2) as real;
    } else {
      assert k == 2 * (k / 2) + 1;
      assert h == (k / 2) as real + 0.5;
      assert h.Floor == k / 2;
    }
  }

  // ---- moveTowards ----

  function Sub(a: Vec2, b: Vec2): Vec2 {
    Vec2(a.x - b.x, a.y - b.y)
  }

  function SqLen(v: Vec2): real {
    v.x * v.x + v.y * v.y
  }

  function Cross(u: Vec2, v: Vec2): real {
    u.x * v.y - u.y * v.x
  }

  function Dot(u: Vec2, v: Vec2): real {
    u.x * v.x + u.y * v.y
  }

  /** The early return of moveTowards: already there, or within one step. */
  predicate WithinStep(origin: Vec2, target: Vec2, speed: real) {
    var sqDist := SqLen(Sub(target, origin));
    sqDist == 0.0 || (speed >= 0.0 && sqDist <= speed * speed)
  }

  lemma SqLenNonNegative(v: Vec2)
    ensures 0.0 <= SqLen(v)
  {
    SquareNonNegative(v.x);
    SquareNonNegative(v.y);
  }

  lemma SqLenPositive(v: Vec2)
    requires SqLen(v) != 0.0
    ensures 0.0 < SqLen(v)
  {
    SqLenNonNegative(v);
  }

  /** moveTowards(origin, target, speed) with Math.sqrt passed in. */
  function MoveTowards(origin: Vec2, target: Vec2, speed: real, sqrt: real -> real): (r: Vec2)
    requires IsSqrt(sqrt)
    ensures WithinStep(origin, target, speed) ==> r == target
  {
    var to := Sub(target, origin);
    if WithinStep(origin, target, speed) then target
    else
      SqLenPositive(to);
      SqrtPositive(sqrt, SqLen(to));
      var dist := sqrt(SqLen(to));
      Vec2(origin.x + (to.x / dist) * speed, origin.y + (to.y / dist) * speed)
  }

  /** moveTowards returns target exactly when it is already there or one step away. */
  lemma MoveTowardsArrives(origin: Vec2, target: Vec2, speed: real, sqrt: real -> real)
    requires IsSqrt(sqrt)
    ensures MoveTowards(origin, target, speed, sqrt) == target <==> WithinStep(origin, target, speed)
  {
    if !WithinStep(origin, target, speed) {
      var to := Sub(target, origin);
      var d := MoveTowardsStep(origin, target, speed, sqrt);
      assert speed == d ==> WithinStep(origin, target, speed);
      assert to.x != 0.0 || to.y != 0.0;
      ScaledMisses(to, d, speed);
    }
  }

  /** Scaling a non-zero vector by speed / d changes it unless speed == d. */
  lemma ScaledMisses(to: Vec2, d: real, speed: real)
    requires 0.0 < d && speed != d && (to.x != 0.0 || to.y != 0.0)
    ensures Vec2((to.x / d) * speed, (to.y / d) * speed) != to
  {
    if to.x != 0.0 {
      ScaledFixed(to.x, d, speed);
    } else {
      ScaledFixed(to.y, d, speed);
    }
  }

  /** Scaling a non-zero t by speed / d leaves it unchanged only when speed == d. */
  lemma ScaledFixed(t: real, d: real, speed: real)
    requires t != 0.0 && d != 0.0
    ensures (t / d) * speed == t ==> speed == d
  {
    var k := speed / d;
    assert (t / d) * speed == t * k;
    CancelFactor(t, k);
    assert k == 1.0 ==> speed == d;
  }

  lemma CancelFactor(t: real, k: real)
    requires t != 0.0
    ensures t * k == t ==> k == 1.0
  {
    if t * k == t {
      calc {
        k;
        (t * k) / t;
        t / t;
        1.0;
      }
    }
  }

  /** The vector moveTowards steps by in its stepping branch. */
  lemma MoveTowardsStep(origin: Vec2, target: Vec2, speed: real, sqrt: real -> real)
    returns (d: real)
    requires IsSqrt(sqrt) && !WithinStep(origin, target, speed)
    ensures 0.0 < d && d == sqrt(SqLen(Sub(target, origin)))
    ensures d * d == SqLen(Sub(target, origin))
    ensures Sub(MoveTowards(origin, target, speed, sqrt), origin)
         == Vec2((Sub(target, origin).x / d) * speed, (Sub(target, origin).y / d) * speed)
  {
    var to := Sub(target, origin);
    SqLenPositive(to);
    SqrtPositive(sqrt, SqLen(to));
    d := sqrt(SqLen(to));
  }

  /** In the stepping branch the step lies on the line from origin to target. */
  lemma MoveTowardsOnLine(origin: Vec2, target: Vec2, speed: real, sqrt: real -> real)
    requires IsSqrt(sqrt)
    ensures Cross(Sub(MoveTowards(origin, target, speed, sqrt), origin), Sub(target, origin)) == 0.0
  {
    if !WithinStep(origin, target, speed) {
      var d := MoveTowardsStep(origin, target, speed, sqrt);
    }
  }

  /** In the stepping branch the step is exactly |speed| long. */
  lemma MoveTowardsStepLength(origin: Vec2, target: Vec2, speed: real, sqrt: real -> real)
    requires IsSqrt(sqrt) && !WithinStep(origin, target, speed)
    ensures SqLen(Sub(MoveTowards(origin, target, speed, sqrt), origin)) == speed * speed
  {
    var d := MoveTowardsStep(origin, target, speed, sqrt);
    ScaledLength(Sub(target, origin), d, speed);
  }

  /** A vector of length d scaled by speed / d has length |speed|. */
  lemma ScaledLength(to: Vec2, d: real, speed: real)
    requires 0.0 < d && d * d == SqLen(to)
    ensures SqLen(Vec2((to.x / d) * speed, (to.y / d) * speed)) == speed * speed
  {
    var k := speed / d;
    calc {
      SqLen(Vec2((to.x / d) * speed, (to.y / d) * speed));
      ((to.x / d) * speed) * ((to.x / d) * speed) + ((to.y / d) * speed) * ((to.y / d) * speed);
      (to.x * k) * (to.x * k) + (to.y * k) * (to.y * k);
      SqLen(to) * (k * k);
      { ScaleEqual(SqLen(to), d * d, k * k); }
      (d * d) * (k * k);
      (d * k) * (d * k);
      speed * speed;
    }
  }

  /** With a non-negative speed the result is never farther than speed from origin. */
  lemma MoveTowardsNeverOvershoots(origin: Vec2, target: Vec2, speed: real, sqrt: real -> real)
    requires IsSqrt(sqrt) && 0.0 <= speed
    ensures SqLen(Sub(MoveTowards(origin, target, speed, sqrt), origin)) <= speed * speed
  {
    if WithinStep(origin, target, speed) {
      SquareNonNegative(speed);
    } else {
      MoveTowardsStepLength(origin, target, speed, sqrt);
    }
  }

  /** A positive speed steps toward target, a negative one away from it. */
  lemma MoveTowardsHeading(origin: Vec2, target: Vec2, speed: real, sqrt: real -> real)
    requires IsSqrt(sqrt) && !WithinStep(origin, target, speed)
    ensures Dot(Sub(MoveTowards(origin, target, speed, sqrt), origin), Sub(target, origin))
         == speed * sqrt(SqLen(Sub(target, origin)))
  {
    var d := MoveTowardsStep(origin, target, speed, sqrt);
    ScaledHeading(Sub(target, origin), d, speed);
  }

  /** A vector of length d scaled by speed / d has dot product speed * d with the original. */
  lemma ScaledHeading(to: Vec2, d: real, speed: real)
    requires 0.0 < d && d * d == SqLen(to)
    ensures Dot(Vec2((to.x / d) * speed, (to.y / d) * speed), to) == speed * d
  {
    var k := speed / d;
    calc {
      Dot(Vec2((to.x / d) * speed, (to.y / d) * speed), to);
      ((to.x / d) * speed) * to.x + ((to.y / d) * speed) * to.y;
      SqLen(to) * k;
      { ScaleEqual(SqLen(to), d * d, k); }
      (d * d) * k;
      speed * d;
    }
  }

  // ---- circlesIntersect ----

  /** circlesIntersect(a, b), with Math.sqrt passed in. */
  predicate CirclesIntersect(a: Circle, b: Circle, sqrt: real -> real) {
    sqrt(SqLen(Vec2(a.x - b.x, a.y - b.y))) <= a.radius + b.radius
  }

  lemma CirclesIntersectSymmetric(a: Circle, b: Circle, sqrt: real -> real)
    ensures CirclesIntersect(a, b, sqrt) == CirclesIntersect(b, a, sqrt)
  {
    calc {
      SqLen(Vec2(b.x - a.x, b.y - a.y));
      (b.x - a.x) * (b.x - a.x) + (b.y - a.y) * (b.y - a.y);
      { assert (b.x - a.x) * (b.x - a.x) == (a.x - b.x) * (a.x - b.x);
        assert (b.y - a.y) * (b.y - a.y) == (a.y - b.y) * (a.y - b.y); }
      (a.x - b.x) * (a.x - b.x) + (a.y - b.y) * (a.y - b.y);
      SqLen(Vec2(a.x - b.x, a.y - b.y));
    }
  }

  /** The test is "squared centre distance at most the squared sum of radii". */
  lemma CirclesIntersectSquared(a: Circle, b: Circle, sqrt: real -> real)
    requires IsSqrt(sqrt)
    ensures CirclesIntersect(a, b, sqrt) <==>
            0.0 <= a.radius + b.radius &&
            SqLen(Vec2(a.x - b.x, a.y - b.y)) <= (a.radius + b.radius) * (a.radius + b.radius)
  {
    SqLenNonNegative(Vec2(a.x - b.x, a.y - b.y));
    SqrtAtMost(sqrt, SqLen(Vec2(a.x - b.x, a.y - b.y)), a.radius + b.radius);
  }

  /** A circle with a non-negative radius intersects itself. */
  lemma CircleIntersectsItself(c: Circle, sqrt: real -> real)
    requires IsSqrt(sqrt) && 0.0 <= c.radius
    ensures CirclesIntersect(c, c, sqrt)
  {
    assert SqLen(Vec2(c.x - c.x, c.y - c.y)) == 0.0;
    SqrtOfZero(sqrt);
  }
}
