/** The bodies of the game world and the per-tick rules that move them:
    constants, spawning, drifting, the turtle's vertical physics, and the
    overlap tests used for stings (jellyfish) and pickups (pearls). */
module Ocean {
  import opened Seqs

  // Tuning constants (main.js:16-23). Canvas size is fixed at 800 x 450.
  const BUOYANCY: real := -500.0
  const DIVE_ACCEL: real := 900.0
  const MAX_VY: real := 520.0
  const HAZARD_SPEED: real := 180.0
  const PEARL_SPEED: real := 220.0
  const SPAWN_EVERY: real := 1100.0
  const SURFACE_Y: real := 40.0
  const CANVAS_WIDTH: real := 800.0
  const CANVAS_HEIGHT: real := 450.0
  const SEABED_Y: real := CANVAS_HEIGHT - 60.0

  // Entity constants (main.js:179-207, 224).
  const SPAWN_X: real := CANVAS_WIDTH + 40.0
  const CULL_EDGE: real := -20.0
  const JELLY_ODDS: real := 0.55
  const JELLY_R: real := 24.0
  const PEARL_R: real := 10.0
  const BOB_RATE: real := 2.5
  const BOB_AMPLITUDE: real := 18.0
  const STING_SLACK: real := 2.0
  /** Math.PI * 2 as a double. */
  const TWO_PI: real := 6.283185307179586

  // Turtle pose (main.js:32-37, 163-165).
  const TURTLE_R: real := 20.0

  datatype Turtle = Turtle(x: real, y: real, r: real, vy: real)
  datatype Jelly = Jelly(x: real, y: real, r: real, phase: real)
  datatype Pearl = Pearl(x: real, y: real, r: real)

  /** The three Math.random() draws spawnEntity may consume, in call order:
      vertical position, kind, and (for a jellyfish) initial bob phase. */
  datatype Draws = Draws(height: real, kind: real, phase: real)
  {
    predicate Valid() {
      0.0 <= height < 1.0 && 0.0 <= kind < 1.0 && 0.0 <= phase < 1.0
    }
  }

  /** What spawnEntity pushes: onto jellys or onto pearls. */
  datatype Spawn = NewJelly(jelly: Jelly) | NewPearl(pearl: Pearl)

  function Min(a: real, b: real): real { if a <= b then a else b }
  function Max(a: real, b: real): real { if a <= b then b else a }

  // ---------------------------------------------------------------- spawning

  /** Math.floor(SURFACE_Y + 40 + u * (SEABED_Y - SURFACE_Y - 80)):
      a whole number in the band [80, 349] for every draw in [0, 1). */
  function SpawnHeight(u: real): (y: real)
    ensures 0.0 <= u < 1.0 ==> 80.0 <= y <= 349.0
    ensures y == y.Floor as real
  {
    (SURFACE_Y + 40.0 + u * (SEABED_Y - SURFACE_Y - 80.0)).Floor as real
  }

  /** spawnEntity: a jellyfish when the kind draw is below 0.55, otherwise a
      pearl, entering at the right edge. */
  function SpawnEntity(d: Draws): (e: Spawn)
    ensures e.NewJelly? <==> d.kind < JELLY_ODDS
    ensures e.NewJelly? ==> e.jelly.x == SPAWN_X && e.jelly.r == JELLY_R
                            && e.jelly.y == SpawnHeight(d.height)
    ensures e.NewPearl? ==> e.pearl.x == SPAWN_X && e.pearl.r == PEARL_R
                            && e.pearl.y == SpawnHeight(d.height)
    ensures d.Valid() && e.NewJelly? ==> 0.0 <= e.jelly.phase < TWO_PI
    ensures d.Valid() && e.NewPearl? ==> 80.0 <= e.pearl.y <= 349.0
  {
    var y := SpawnHeight(d.height);
    if d.kind < JELLY_ODDS then NewJelly(Jelly(SPAWN_X, y, JELLY_R, d.phase * TWO_PI))
    else NewPearl(Pearl(SPAWN_X, y, PEARL_R))
  }

  // ---------------------------------------------------------------- drifting

  /** One jellyfish after a tick of dt seconds: it drifts left, its phase
      advances, and it moves vertically by sine(new phase) * 18 * dt. */
  function MoveJelly(j: Jelly, dt: real, sine: real -> real): (m: Jelly)
    ensures m.r == j.r
    ensures m.x == j.x - HAZARD_SPEED * dt
    ensures m.phase == j.phase + dt * BOB_RATE
    ensures m.y == j.y + sine(m.phase) * BOB_AMPLITUDE * dt
  {
    var phase := j.phase + dt * BOB_RATE;
    Jelly(j.x - HAZARD_SPEED * dt, j.y + sine(phase) * BOB_AMPLITUDE * dt, j.r, phase)
  }

  function Abs(a: real): real { if a < 0.0 then -a else a }

  /** With a sine bounded by [-1, 1] a jellyfish bobs by at most 18 * |dt|. */
  lemma JellyBob(j: Jelly, dt: real, sine: real -> real)
    requires forall t :: -1.0 <= sine(t) <= 1.0
    ensures -BOB_AMPLITUDE * Abs(dt) <= MoveJelly(j, dt, sine).y - j.y <= BOB_AMPLITUDE * Abs(dt)
  {
    var s := sine(j.phase + dt * BOB_RATE);
    var a := Abs(dt);
    MulNonneg(1.0 - s, a);
    MulNonneg(1.0 + s, a);
    assert -a <= s * a <= a;
    assert s * dt == s * a || s * dt == -(s * a);
  }

  /** One pearl after a tick: it drifts left and keeps its height. */
  function MovePearl(p: Pearl, dt: real): (m: Pearl)
    ensures m.x == p.x - PEARL_SPEED * dt && m.y == p.y && m.r == p.r
  {
    p.(x := p.x - PEARL_SPEED * dt)
  }

  /** Every jellyfish moved, in place and in order (the for-of loop at main.js:200-204). */
  function MoveJellys(js: seq<Jelly>, dt: real, sine: real -> real): (ms: seq<Jelly>)
    ensures |ms| == |js|
    ensures forall k :: 0 <= k < |js| ==> ms[k] == MoveJelly(js[k], dt, sine)
  {
    seq(|js|, k requires 0 <= k < |js| => MoveJelly(js[k], dt, sine))
  }

  /** Every pearl moved, in order (main.js:205). */
  function MovePearls(ps: seq<Pearl>, dt: real): (ms: seq<Pearl>)
    ensures |ms| == |ps|
    ensures forall k :: 0 <= k < |ps| ==> ms[k] == MovePearl(ps[k], dt)
  {
    seq(|ps|, k requires 0 <= k < |ps| => MovePearl(ps[k], dt))
  }

  /** The filter conditions that keep an entity on the board (main.js:206-207). */
  predicate JellyOnScreen(j: Jelly) { j.x + j.r > CULL_EDGE }
  predicate PearlOnScreen(p: Pearl) { p.x + p.r > CULL_EDGE }

  // ----------------------------------------------------------------- physics

  /** Math.max(-MAX_VY, Math.min(MAX_VY, v)). */
  function ClampSpeed(v: real): (c: real)
    ensures -MAX_VY <= c <= MAX_VY
    ensures -MAX_VY <= v <= MAX_VY ==> c == v
    ensures v > MAX_VY ==> c == MAX_VY
    ensures v < -MAX_VY ==> c == -MAX_VY
  {
    Max(-MAX_VY, Min(MAX_VY, v))
  }

  function Accel(diving: bool): real { if diving then DIVE_ACCEL else BUOYANCY }

  /** Velocity integration with the speed clamp, then position integration
      with the clamped velocity (main.js:210-213). */
  function Integrate(t: Turtle, diving: bool, dt: real): (n: Turtle)
    ensures -MAX_VY <= n.vy <= MAX_VY
    ensures n.vy == ClampSpeed(t.vy + Accel(diving) * dt)
    ensures n.y == t.y + n.vy * dt
    ensures n.x == t.x && n.r == t.r
  {
    var vy := ClampSpeed(t.vy + Accel(diving) * dt);
    t.(vy := vy, y := t.y + vy * dt)
  }

  /** The surface is a hard floor for upward motion: a turtle whose top is
      above the surface line is put back on it and loses any upward speed
      (main.js:216-219). */
  function SurfaceClamp(t: Turtle): (n: Turtle)
    ensures n.y - n.r >= SURFACE_Y
    ensures n.x == t.x && n.r == t.r
    ensures t.y - t.r < SURFACE_Y ==>
              n.y == SURFACE_Y + t.r && n.vy >= 0.0 && n.vy == Max(t.vy, 0.0)
    ensures t.y - t.r >= SURFACE_Y ==> n == t
    ensures -MAX_VY <= t.vy <= MAX_VY ==> -MAX_VY <= n.vy <= MAX_VY
  {
    if t.y - t.r < SURFACE_Y then
      var lifted := t.(y := SURFACE_Y + t.r);
      if lifted.vy < 0.0 then lifted.(vy := 0.0) else lifted
    else t
  }

  /** The seabed death test (main.js:220). */
  predicate OnSeabed(t: Turtle) { t.y + t.r > SEABED_Y }

  // -------------------------------------------------------------- collisions

  /** dist2 (main.js:190): the squared distance between two points. */
  function Dist2(ax: real, ay: real, bx: real, bY: real): (d: real)
    ensures d >= 0.0
    ensures ax == bx && ay == bY ==> d == 0.0
  {
    var dx, dy := ax - bx, ay - bY;
    SquareNonneg(dx);
    SquareNonneg(dy);
    dx * dx + dy * dy
  }

  /** Swapping the two points does not change the squared distance. */
  lemma Dist2Symmetric(ax: real, ay: real, bx: real, bY: real)
    ensures Dist2(ax, ay, bx, bY) == Dist2(bx, bY, ax, ay)
  {
    assert (bx - ax) * (bx - ax) == (ax - bx) * (ax - bx);
    assert (bY - ay) * (bY - ay) == (ay - bY) * (ay - bY);
  }

  lemma MulNonneg(x: real, y: real)
    requires x >= 0.0 && y >= 0.0
    ensures x * y >= 0.0
  {
  }

  /** A number no larger in magnitude than b has a square no larger than b's. */
  lemma SquareBound(a: real, b: real)
    requires -b <= a <= b
    ensures a * a <= b * b
  {
    MulNonneg(b - a, b + a);
    assert (b - a) * (b + a) == b * b - a * a;
  }

  lemma SquareNonneg(a: real)
    ensures a * a >= 0.0
  {
    if a < 0.0 {
      assert a * a == (-a) * (-a);
    }
  }

  /** A jellyfish stings when the centres are closer than the sum of radii
      less a forgiveness of 2 (main.js:224-225). */
  predicate Stings(t: Turtle, j: Jelly)
  {
    var reach := t.r + j.r - STING_SLACK;
    Dist2(t.x, t.y, j.x, j.y) < reach * reach
  }

  /** A pearl is picked up when the centres are closer than the sum of radii
      (main.js:230-231). */
  predicate Touches(t: Turtle, p: Pearl)
  {
    var reach := t.r + p.r;
    Dist2(t.x, t.y, p.x, p.y) < reach * reach
  }

  predicate StungBy(t: Turtle, js: seq<Jelly>)
  {
    exists k :: 0 <= k < |js| && Stings(t, js[k])
  }

  /** The pearls a turtle at t picks up, and those it leaves, in order. */
  function Caught(t: Turtle, ps: seq<Pearl>): seq<Pearl>
  {
    Filter(ps, Touching(t))
  }

  function Kept(t: Turtle, ps: seq<Pearl>): seq<Pearl>
  {
    Filter(ps, Missing(t))
  }

  function Touching(t: Turtle): Pearl -> bool { (p: Pearl) => Touches(t, p) }
  function Missing(t: Turtle): Pearl -> bool { (p: Pearl) => !Touches(t, p) }

  /** Kept and Caught partition the pearls: nothing is lost or duplicated,
      the kept ones are exactly the untouched ones, and in order. */
  lemma PickupPartition(t: Turtle, ps: seq<Pearl>)
    ensures |Kept(t, ps)| + |Caught(t, ps)| == |ps|
    ensures multiset(Kept(t, ps)) + multiset(Caught(t, ps)) == multiset(ps)
    ensures forall p :: p in Kept(t, ps) <==> p in ps && !Touches(t, p)
    ensures forall p :: p in Caught(t, ps) <==> p in ps && Touches(t, p)
    ensures IsSubsequence(Kept(t, ps), ps)
  {
    FilterComplement(ps, Missing(t), Touching(t));
    FilterMembers(ps, Missing(t));
    FilterMembers(ps, Touching(t));
    FilterSubsequence(ps, Missing(t));
  }

  /** Walking the pearls from the back, the pearl at i is dropped and
      counted exactly when the turtle touches it. */
  lemma PickupStep(t: Turtle, ps: seq<Pearl>, i: nat)
    requires i < |ps|
    ensures Kept(t, ps[i..]) == (if Touches(t, ps[i]) then [] else [ps[i]]) + Kept(t, ps[i + 1..])
    ensures |Caught(t, ps[i..])| == |Caught(t, ps[i + 1..])| + (if Touches(t, ps[i]) then 1 else 0)
  {
    assert ps[i..] == [ps[i]] + ps[i + 1..];
    FilterCons(ps[i], ps[i + 1..], Missing(t));
    FilterCons(ps[i], ps[i + 1..], Touching(t));
  }
}
