# Bullet-hell jam 2023: a Dafny model of the simulation core

The game is a canvas arcade game. The player flies a saucer over a
field of hills, uses a tractor beam to lift cows, and dodges the bullets
of farmers and airplanes. This project models the per-frame simulation
of its entities, without the drawing:

- the geometry and random helpers (`src/utils.ts`);
- the procedural hill skyline (`src/hills.ts`);
- the player's ship, in the current version (`src/player.ts`) and in the prototype (`src/main.ts`);
- cows, farmers, airplanes, bullets and explosions;
- the background star field.

Each entity that the source updates in place is a Dafny `class` with the
source's fields:

- its `createX` function, or its class constructor, is the unnamed constructor;
- its `updateX` function is a method whose `modifies` clause names exactly the fields the source assigns;
- each update method is specified against a pure function of the old
  state: `PlayerStep`, `PrototypeStep`, `CowStep`, `FarmerStep`, `FadeStep`,
  `Drifted`, `Ring` and `Sky`;
- the properties the game relies on are lemmas about those functions.

The loops of the source stay loops:

- `createHills`' `while` loop;
- `generateEmbers`' `for` loop;
- the ember loop of `updateExplosion`;
- `initStars`' `for` loop.

Each carries the invariants its proof needs.

Numbers:

- JavaScript numbers are Dafny `real`s, so no claim depends on floating-point rounding;
- `Math.floor` and `Math.ceil` are exact;
- `Math.sqrt`, `Math.cos` and `Math.sin` are parameters of type `real -> real`;
- the sqrt property used is `IsSqrt`: the non-negative root of a non-negative number;
- the cos/sin properties are `IsUnitCircle`, used only for the ember speed (`RingSpeed`), and `cos(0) == 1 && sin(0) == 0`, used only for the bullet fired at angle 0 (`FiredRight`).

`Math.random()` results are parameters too:

- a single draw `r` satisfies `0 <= r < 1` (`IsRandom`);
- a loop that draws repeatedly reads a stream `random: nat -> real` of such draws (`IsRandomStream`);
- draw numbers follow the source's call order: point i of the hills uses draws 2i (step) and 2i+1 (height), and star i uses 3i, 3i+1 and 3i+2.

Inputs from outside the shown code are parameters of each update:

- `isKeyDown(k)` of a frame is `k in held`, for the set of keys held during that frame;
- the animation timer's `hasPassed()` is a boolean `animationDue`.

The two `updatePlayer` versions, `updateCow` and `updateFarmer` are
written as their source blocks in order:

- the key tests;
- the move with friction;
- the edge tests;
- for the walkers, the animation tick and the landing.

Each block is a small method on the same fields. The edge tests keep
their own order in each version. The code the two ship versions share is
in `Controls`; the code the cow and the farmer share is in `Walkers`.

## The grounded cow

One might expect a landed cow's vertical speed to stay 0. Instead,
`src/cow.ts:102-107` adds GRAVITY on every frame on which the cow is not
below its ground line.

- A standing cow therefore gains `vy = GRAVITY` on one frame.
- On the next frame it sinks below the line and is snapped back with `vy = 0`.
- Its `y` stays on the ground line throughout.

The model follows the code. `Cow.CowGroundedCycle` proves this two-frame
cycle, and `Cow.CowStepLands` proves the landing rule frame by frame.

## Model

| member | source | states |
|---|---|---|
| Utils.GetRandomInt | src/utils.ts:3-7 | with min rounded up and max rounded down, the result is an integer in [min, max) when min < max (max exclusive, min inclusive), equals min when they meet, and lies between them otherwise |
| Utils.Clamp | src/utils.ts:9-11 | the result is never above max; when min <= max it lies in [min, max], equals n when n is in range, min below the range, max above it |
| Utils.ClampIdempotent | src/utils.ts:9-11 | clamping a clamped value changes nothing |
| Utils.Choose | src/utils.ts:13 | choose returns a or b: a exactly when the draw is above 0.5 |
| Utils.SampleIndex | src/utils.ts:15-16 | floor(r * length) is a valid index of a non-empty array |
| Utils.Sample | src/utils.ts:15-16 | sample yields a value exactly when the array is non-empty, and that value is an element of it (undefined is None) |
| Utils.IsEvenIffHalfIsInteger | src/utils.ts:18 | isEven(n), n % 2 === 0 with the truncating remainder, holds exactly when n/2 is a whole number (negative n included) |
| Utils.IsEvenOnIntegers | src/utils.ts:18 | on integers isEven agrees with divisibility by 2 |
| Utils.MoveTowards | src/utils.ts:23-39 | moveTowards returns the target whenever it is already reached or within one step |
| Utils.MoveTowardsArrives | src/utils.ts:27-31 | the result is the target if and only if the squared distance is 0, or speed >= 0 and the squared distance is at most speed squared |
| Utils.MoveTowardsOnLine | src/utils.ts:33-38 | the displacement is parallel to the vector to the target (zero cross product) |
| Utils.MoveTowardsStepLength | src/utils.ts:33-38 | in the stepping branch the point moves exactly speed |
| Utils.MoveTowardsHeading | src/utils.ts:33-38 | in the stepping branch the displacement points along the to-vector (dot product speed times distance) |
| Utils.MoveTowardsNeverOvershoots | src/utils.ts:23-39 | for speed >= 0 the point never moves more than speed |
| Utils.CirclesIntersectSymmetric | src/utils.ts:41-51 | circlesIntersect(a, b) == circlesIntersect(b, a) |
| Utils.CirclesIntersectSquared | src/utils.ts:44-50 | circles intersect exactly when the squared centre distance is at most the squared sum of non-negative radii |
| Utils.CircleIntersectsItself | src/utils.ts:41-51 | a circle with non-negative radius intersects itself |
| Hills.PickIsSample | src/utils.ts:15-16 | on the never-empty step lists sample always yields a list element |
| Hills.StepsFromList | src/hills.ts:9-14 | every drawn horizontal step is one of 32, 64, 96 |
| Hills.HeightsFromList | src/hills.ts:8-15 | every drawn height is one of the vertical steps |
| Hills.DrawHills | src/hills.ts:10-18 | the loop's points are the drawn skyline (point i at the sum of the first steps, start at minus the first step, at its drawn height); every point but the last is left of the canvas edge, the last is at or past it; the loop terminates |
| Hills.CreateHills | src/hills.ts:5-19 | createHills returns the drawn skyline, which starts at -h for h in {32, 64, 96}, has its y values in the vertical list, consecutive x differences in the horizontal list, strictly increasing x, and 8 to 24 points |
| Hills.XAtBounds | src/hills.ts:10-16 | the x of point k lies between -96 + 32k and -32 + 96k |
| Hills.XAtIncreasing | src/hills.ts:13-16 | the x values are strictly increasing |
| Hills.StepsBelowEdge | src/hills.ts:13-16 | only points with index below 23 can be left of the edge, which bounds the loop |
| Hills.DrawnSkyline | src/hills.ts:5-19 | a drawn list of points that stops at the canvas edge has every skyline property |
| Hills.DrawnLength | src/hills.ts:10-18 | a skyline that stops at the edge has between 8 and 24 points |
| Hills.DrawnSteps | src/hills.ts:9-16 | the first x is minus a listed step, and consecutive x values differ by a listed step |
| Hills.DrawnHeights | src/hills.ts:8-15 | every point's y is a listed height |
| Hills.DrawnIncreasing | src/hills.ts:13-16 | any earlier point lies left of any later one |
| Controls.ConfineIsClamp | src/player.ts:102-105 | the two edge tests along an axis equal clamp(v, r, limit - r) |
| Controls.ConfineBounds | src/player.ts:102-105 | after the edge tests the disc never crosses the far edge, and never the near edge when it fits (2r <= limit) |
| Controls.ConfineInterior | src/player.ts:102-105 | a disc strictly inside is left where it is, and only then |
| Controls.SteeredPriority | src/player.ts:91-94 | down/S overrides up/W, right/D overrides left/A, and with neither key of an axis held that velocity is kept; position untouched |
| Controls.SteeredWithinSpeed | src/player.ts:91-94 | steering keeps each velocity component within [-speed, speed] |
| Controls.FrictionWithinSpeed | src/player.ts:99-100 | a friction factor in [0, 1] keeps a velocity bound |
| Controls.DriveBounds | src/player.ts:97-105 | move, friction and edge tests keep a fitting disc inside the box |
| Controls.DriveAdvances | src/player.ts:97-100 | the new velocity is the old one times friction, and an unconfined move lands on old position plus old velocity |
| Player.Player.constructor | src/player.ts:18-32 | createPlayer: at the given point, at rest, alive, not beaming, speed 4, radius 10, rotation 0, beamSpeed 2, colour #fff |
| Player.UpdatePlayer | src/player.ts:89-106 | the new position and velocity are PlayerStep of the old; the disc then lies in [r, 640 - r] by [r, FLOOR - r]; alive, beaming, speed, radius, rotation and beamSpeed are unchanged |
| Player.SteerShip | src/player.ts:90-95 | the four key tests set the velocity as Steered says |
| Player.MoveShip | src/player.ts:97-100 | the ship moves by its velocity, which is then scaled by FRICTION |
| Player.KeepShipInside | src/player.ts:102-105 | the four edge tests in their order confine x to the canvas width and y to the floor |
| Player.PlayerStepInBounds | src/player.ts:102-105 | after a frame radius <= x <= 640 - radius and radius <= y <= FLOOR - radius |
| Player.PlayerStepBeamLock | src/player.ts:90-100 | while beaming the held keys make no difference and the velocity is only multiplied by FRICTION |
| Player.PlayerStepKeyPriority | src/player.ts:91-94 | with the beam off, down beats up and right beats left: the later test sets the velocity, which decays once by 0.8 |
| Player.PlayerStepWithinSpeed | src/player.ts:90-100 | if abs(vx), abs(vy) <= speed before a frame, this still holds after it |
| Player.PlayerStepAdvances | src/player.ts:97-100 | the ship moves by its pre-friction velocity (new velocity / 0.8) whenever no edge stops it |
| Prototype.Player.constructor | src/main.ts:29-40 | the prototype createPlayer: at the given point, at rest, speed 4, radius 10, rotation 0, colour #fff |
| Prototype.UpdatePlayer | src/main.ts:89-104 | the new position and velocity are PrototypeStep of the old; the disc then lies on the 640 by 480 canvas; speed, radius, rotation and colour are unchanged |
| Prototype.SteerShip | src/main.ts:90-93 | the four key tests of the prototype set the velocity as Steered says |
| Prototype.MoveShip | src/main.ts:95-98 | the ship moves by its velocity, which is then scaled by 0.96 |
| Prototype.KeepShipInside | src/main.ts:100-103 | the edge tests in the prototype's order confine x to the width and y to the canvas height |
| Prototype.PrototypeStepInBounds | src/main.ts:100-103 | after a frame radius <= x <= 640 - radius and radius <= y <= 480 - radius |
| Prototype.PrototypeStepKeyPriority | src/main.ts:90-93 | there is no beam lock: down beats up and right beats left on every frame |
| Prototype.PrototypeStepCoasts | src/main.ts:95-98 | with no key held the velocity becomes the old one times 0.96, and an unstopped ship moves by its old velocity |
| Prototype.PrototypeStepAdvances | src/main.ts:95-98 | the ship moves by its pre-friction velocity (new velocity / 0.96) whenever no edge stops it |
| Walkers.BobAlternates | src/cow.ts:99 | the stretch toggles 1 to 1.1 and back, and any other value falls into that cycle |
| Walkers.SwaySettles | src/cow.ts:98 | the tilt becomes -0.02 or 0, stays 0 once upright, and a second tick changes nothing |
| Walkers.AnimateKeepsLevel | src/cow.ts:97-100 | a tick keeps a level walker level, flips its stretch and moves nothing else |
| Cow.Cow.constructor | src/cow.ts:20-37 | createCow: active, not abducted, vy 0, scale (1,1), rotation 0, 20 by 20, speed 0.2, vx -0.2 right of the canvas middle and +0.2 otherwise, a 300 ms animation timer |
| Cow.UpdateCow | src/cow.ts:90-109 | the new state is CowStep of the old; a free cow ends above its ground line; active, isBeingAbducted, width, height and speed are unchanged |
| Cow.WalkCow | src/cow.ts:92-96 | the cow moves by its velocity and is mirrored when walking right |
| Cow.AnimateCow | src/cow.ts:97-100 | one tick of the walk animation |
| Cow.LandCow | src/cow.ts:102-107 | below the ground line the cow is put on it with vy 0, otherwise vy grows by GRAVITY |
| Cow.CowStepAbducted | src/cow.ts:91 | a cow in the beam is not changed at all |
| Cow.CowStepWalks | src/cow.ts:92-96 | x grows by vx, vx never changes, scale.x becomes -1 when vx > 0 and is otherwise kept (never reset to 1); without a tick tilt and stretch stay |
| Cow.CowStepLands | src/cow.ts:102-107 | after a free frame y <= FLOOR - height; a clamp means vy = 0, otherwise y moved by vy and vy grew by exactly GRAVITY |
| Cow.CowGroundedCycle | src/cow.ts:102-107 | a cow standing on its ground line stays there while its vy alternates GRAVITY, 0 |
| Cow.CowStaysLevel | src/cow.ts:97-100 | a cow created upright with stretch 1 stays upright with stretch 1 or 1.1 over any run of frames |
| Cow.CowFreeFall | src/cow.ts:102-107 | a cow falling from vy >= 0 that stays above its ground line for n frames drops n*vy + GRAVITY*n*(n-1)/2 and gains n*GRAVITY of speed |
| Farmer.Farmer.constructor | src/farmer.ts:22-39 | createFarmer: vx -0.5 right of the canvas middle and +0.5 otherwise, vy 0, scale (1,1), rotation 0, 10 by 25, white skin, gray clothes, 1500 ms fire timer, 300 ms animation timer |
| Farmer.UpdateFarmer | src/farmer.ts:59-73 | the new state is FarmerStep of the old; the farmer ends at or above its ground line; vx and vy are unchanged |
| Farmer.WalkFarmer | src/farmer.ts:60-64 | the farmer moves by its velocity and is mirrored when walking left |
| Farmer.AnimateFarmer | src/farmer.ts:65-68 | one tick of the walk animation |
| Farmer.FarmerStepWalks | src/farmer.ts:60-72 | x and y grow by vx and vy with y capped at FLOOR - height; vx and vy never change (no gravity); scale.x becomes -1 when vx < 0 |
| Farmer.FarmerStaysLevel | src/farmer.ts:65-68 | a farmer created upright with stretch 1 stays upright with stretch 1 or 1.1 |
| Farmer.FarmerWalksSteadily | src/farmer.ts:60-61 | after n frames the velocity is unchanged and x has grown by n*vx |
| Airplane.Airplane.constructor | src/airplane.ts:15-28 | createAirplane: inactive, at rest, radius 40, speed 1, scaleX 1, colour #fff, a 500 ms fire timer |
| Airplane.UpdateAirplane | src/airplane.ts:30-32 | x grows by vx; y, vy, active, scaleX, radius and speed are unchanged |
| Airplane.FlownDistance | src/airplane.ts:30-32 | n updates move the plane by n*vx, so a plane at rest (as created) stays put |
| Bullet.Bullet.constructor | src/bullet.ts:10-13 | position and origin both equal the argument's coordinates; velocity (2,2), size 6 by 6 |
| Bullet.Bullet.Update | src/bullet.ts:15-18 | position grows by (cos(angle)*velocity.x, sin(angle)*velocity.y); angle, velocity, origin, width and height are unchanged |
| Bullet.FlightDistance | src/bullet.ts:15-18 | after n updates the position is the start plus n times the step |
| Bullet.FiredRight | src/bullet.ts:15-18 | at angle 0 with velocity (2,2) each update moves 2 right and none down |
| Explosion.Explosion.constructor | src/explosion.ts:3-15 | createExplosion: alpha 1, count 8, radius 1, no embers, not ended, ember radius 3, colour red |
| Explosion.GenerateEmbers | src/explosion.ts:26-44 | exactly count embers (none for count <= 0), ember i at the centre, alpha 1, the ember radius, velocity radius * (cos, sin) of 2*PI*i/count |
| Explosion.Drifted | src/explosion.ts:50-52 | moving every ember keeps the number of embers |
| Explosion.UpdateExplosion | src/explosion.ts:45-69 | embers are generated when there are none, then every ember moves by its own velocity; alpha and ended follow FadeStep |
| Explosion.DriftEmbers | src/explosion.ts:50-53 | the in-place ember loop leaves the list equal to Drifted of the old list |
| Explosion.EmbersGeneratedOnce | src/explosion.ts:46-48 | a non-empty ember list keeps its length; an empty one gets count embers |
| Explosion.DriftedMoves | src/explosion.ts:50-52 | each ember moves by its own (vx, vy) and keeps its velocity, alpha and radius |
| Explosion.FadeStepMonotone | src/explosion.ts:63-68 | ended is never cleared and alpha never rises |
| Explosion.FadeCountdown | src/explosion.ts:63-68 | from alpha 1 and not ended, n updates leave alpha 1 - 0.03n and ended exactly when n >= 34, so ended first becomes true on the 34th update |
| Explosion.RingSpeed | src/explosion.ts:36-37 | with cos and sin on the unit circle every ember flies at speed exactly radius |
| Stars.Stars.constructor | src/stars.ts:16-18 | new Stars(count) holds exactly the drawn count stars and its camera at (0, 0) |
| Stars.Stars.InitStars | src/stars.ts:20-28 | initStars appends starCount drawn stars after the existing ones |
| Stars.Stars.MakeCamFollow | src/stars.ts:30-33 | the camera moves to the point; the stars are unchanged |
| Stars.Sky | src/stars.ts:20-28 | a batch holds starCount stars, none when it is not positive |
| Stars.SkyInField | src/stars.ts:23-25 | every star has whole-number coordinates with -6400 <= x < 6400, -4800 <= y < 4800 and 50 <= z < 500 |
| Stars.DepthStep | src/stars.ts:7-10 | step = max_size / (max_depth - min_depth) = 3/450 |

## Left out

- Drawing is canvas side effects: every `render*` function, `Stars.render`, `Bullet.render`, `renderTractorBeam`, `renderHills`, `renderBg`, `fadeOutFrame`, `renderBullet`, and the drawing inside `updateExplosion` (`src/explosion.ts:54-60`).
- Browser wiring in `src/main.ts` is DOM event handling: canvas sizing (7-15), the `state` record and the mousedown/mouseup listeners that set its `beaming` flag (106-117), and the `requestAnimationFrame` loop (119-160).
- `src/keyboard.ts` is window event plumbing: the pressed-key table becomes the `held` set that each ship update takes.
- `./duration` and `./layers` are not part of this model. `hasPassed()` is the unconstrained boolean `animationDue`, with no re-arm semantics. The timers' periods are kept as millisecond fields (`animationMs`, `fireRateMs`).
- Floating-point rounding is not modelled: all numbers are exact reals.
  - `FadeCountdown` relies on exact arithmetic. With doubles, the repeated `alpha -= 0.03` rounds at every step.
  - There is no NaN, so `if (e.alpha)` is modelled as `alpha != 0`.
- `Math.sqrt`, `Math.cos`, `Math.sin` and `Math.random` are parameters whose only assumed properties are `IsSqrt`, `IsUnitCircle` (only in `RingSpeed`), `cos(0.0) == 1.0 && sin(0.0) == 0.0` (only in `FiredRight`) and `IsRandom`. No trigonometric value is computed.
- `hsla` is colour string formatting.
- Game rules are not in the modelled files: collisions, the capture corridor, respawn, lives, score and game over.
- `src/constants.ts` and `src/types.ts` are transcribed as Dafny constants and datatypes, with no properties of their own.
- Aliasing is not modelled. A cow's or farmer's `scale`, a bullet's `origin`, `position` and `velocity`, and the ember objects are JavaScript objects updated in place. Here they are datatype values that the update reassigns. The source creates each of them fresh and never shares it, so the model has the same behaviour without aliasing.
- `Explosion.GenerateEmbers`: `count` is an integer. A fractional count would make the source's loop run ceil(count) times.
- `Stars.Stars.constructor`: Dafny has no default arguments, so the source's default of 100 stars is not modelled and the caller passes the count.
- `Stars.Stars.InitStars`: `starCount` is an integer, although a fractional count would make the loop of `src/stars.ts:21` run ceil(starCount) times. Also, initStars' own default of 100 (`src/stars.ts:20`) is not modelled, and the caller passes the count.
- `Hills.CreateHills`: `sample` on the two step lists, which are never empty, is modelled as direct indexing (`Pick`). `Hills.PickIsSample` shows this equals `sample`.
