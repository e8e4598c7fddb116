/** The game session: the state machine menu / playing / game over, the
    per-frame update that drives spawning, drifting, culling, physics,
    collisions and scoring (main.js:192-236), and the transitions around it
    (main.js:103-107, 132-172, 378-383).

    The pure functions below give the meaning of each transition on a World
    value; the class Game holds the same state in mutable fields, as the
    module-level variables of main.js do, and each of its methods is proved
    to change the fields exactly as the matching function says. */
module Session {
  import opened Seqs
  import opened Ocean
  import opened Scores
  import opened Frames

  datatype Phase = Menu | Playing | GameOver

  /** Everything a tick reads or writes: the module-level state of main.js.
      `diving` is isDiving; `board` is the stored leaderboard list. */
  datatype World = World(state: Phase, accSpawn: real, score: nat, turtle: Turtle,
                         jellys: seq<Jelly>, pearls: seq<Pearl>, diving: bool,
                         board: seq<Entry>)

  /** What a tick takes from outside the game state: the random draws, the
      sine function, the text of the name field and the current date (these
      two are only read when the game ends). */
  datatype Env = Env(draws: Draws, sine: real -> real, nameField: string, now: string)

  /** One animation frame's worth of input to the update. */
  datatype Input = Input(dt: real, env: Env)

  // ------------------------------------------------------------ invariant

  /** The shape a spawned jellyfish keeps for its whole life: its radius. */
  predicate JellyShaped(j: Jelly) { j.r == JELLY_R }

  /** The shape a spawned pearl keeps: its radius and a height in the spawn band. */
  predicate PearlShaped(p: Pearl) { p.r == PEARL_R && 80.0 <= p.y <= 349.0 }

  predicate GoodJelly(j: Jelly) { JellyShaped(j) && JellyOnScreen(j) }

  predicate GoodPearl(p: Pearl) { PearlShaped(p) && PearlOnScreen(p) }

  /** The turtle keeps its radius, its speed is within the clamp and it is
      never above the surface. */
  predicate GoodTurtle(t: Turtle)
  {
    t.r == TURTLE_R && -MAX_VY <= t.vy <= MAX_VY && t.y - t.r >= SURFACE_Y
  }

  /** What every reachable world satisfies: a good turtle that, while a game
      is running, is never below the seabed; a spawn accumulator below the
      spawn interval; every jellyfish and pearl on screen with its spawn
      shape. */
  predicate Good(w: World)
  {
    GoodTurtle(w.turtle)
    && (w.state == Playing ==> !OnSeabed(w.turtle))
    && w.accSpawn < SPAWN_EVERY
    && (forall k :: 0 <= k < |w.jellys| ==> GoodJelly(w.jellys[k]))
    && (forall k :: 0 <= k < |w.pearls| ==> GoodPearl(w.pearls[k]))
  }

  // ---------------------------------------------------- the update, in steps

  /** Step 2 of update: the accumulator grows by the elapsed milliseconds;
      when it reaches the interval it restarts at 0 and one entity is pushed
      (main.js:196-197). */
  function SpawnPhase(w: World, dt: real, d: Draws): (n: World)
    ensures n.state == w.state && n.score == w.score && n.turtle == w.turtle
    ensures n.diving == w.diving && n.board == w.board
    ensures w.jellys <= n.jellys && w.pearls <= n.pearls
    ensures |n.jellys| + |n.pearls| == |w.jellys| + |w.pearls|
              + (if w.accSpawn + dt * 1000.0 >= SPAWN_EVERY then 1 else 0)
    ensures w.accSpawn + dt * 1000.0 >= SPAWN_EVERY ==> n.accSpawn == 0.0
    ensures w.accSpawn + dt * 1000.0 < SPAWN_EVERY ==> n.accSpawn == w.accSpawn + dt * 1000.0
    ensures n.accSpawn < SPAWN_EVERY
  {
    var acc := w.accSpawn + dt * 1000.0;
    if acc < SPAWN_EVERY then w.(accSpawn := acc)
    else match SpawnEntity(d)
      case NewJelly(j) => w.(accSpawn := 0.0, jellys := w.jellys + [j])
      case NewPearl(p) => w.(accSpawn := 0.0, pearls := w.pearls + [p])
  }

  /** Steps 3 and 4: move every entity, then drop those that left the screen. */
  function DriftPhase(w: World, dt: real, sine: real -> real): World
  {
    w.(jellys := Filter(MoveJellys(w.jellys, dt, sine), JellyOnScreen),
       pearls := Filter(MovePearls(w.pearls, dt), PearlOnScreen))
  }

  /** Steps 5 and 6: integrate the turtle and clamp it at the surface. */
  function PhysicsPhase(w: World, dt: real): World
  {
    w.(turtle := SurfaceClamp(Integrate(w.turtle, w.diving, dt)))
  }

  /** The world after everything update does before its seabed test. */
  function Advanced(w: World, dt: real, env: Env): World
  {
    PhysicsPhase(DriftPhase(SpawnPhase(w, dt, env.draws), dt, env.sine), dt)
  }

  /** The state transition of gameOver: the game freezes and the final
      score is added to the leaderboard under the trimmed name
      (main.js:149-153). */
  function Finish(w: World, nameField: string, now: string): (n: World)
    ensures n.state == GameOver && n.score == w.score && n.turtle == w.turtle
    ensures n.jellys == w.jellys && n.pearls == w.pearls && n.diving == w.diving
    ensures |n.board| <= BOARD_SIZE && SortedDesc(n.board)
  {
    w.(state := GameOver,
       board := AddScore(w.board, PlayerName(nameField), w.score, now))
  }

  /** Step 9: every pearl the turtle touches is removed and scores one. */
  function Collect(w: World): (n: World)
    ensures n.state == w.state && n.turtle == w.turtle && n.jellys == w.jellys
    ensures n.board == w.board && n.diving == w.diving && n.accSpawn == w.accSpawn
    ensures n.score == w.score + (|w.pearls| - |n.pearls|)
    ensures forall p :: p in n.pearls <==> p in w.pearls && !Touches(w.turtle, p)
    ensures IsSubsequence(n.pearls, w.pearls)
    ensures |n.pearls| + |Caught(w.turtle, w.pearls)| == |w.pearls|
    ensures n.score == w.score + |Caught(w.turtle, w.pearls)|
  {
    PickupPartition(w.turtle, w.pearls);
    w.(pearls := Kept(w.turtle, w.pearls), score := w.score + |Caught(w.turtle, w.pearls)|)
  }

  /** Steps 7 to 9: seabed death, then stings, then pickups. */
  function Resolve(w: World, env: Env): World
  {
    if OnSeabed(w.turtle) || StungBy(w.turtle, w.jellys) then Finish(w, env.nameField, env.now)
    else Collect(w)
  }

  /** update(dt): nothing happens unless a game is running. */
  function Step(w: World, dt: real, env: Env): World
  {
    if w.state != Playing then w else Resolve(Advanced(w, dt, env), env)
  }

  /** A sequence of updates. */
  function Run(w: World, ins: seq<Input>): World
    decreases |ins|
  {
    if |ins| == 0 then w else Run(Step(w, ins[0].dt, ins[0].env), ins[1..])
  }

  // ---------------------------------------------- the other transitions

  /** The state main.js starts with, before its first resetToMenu call. */
  function Initial(board: seq<Entry>): World
  {
    World(Menu, 0.0, 0, Turtle(160.0, 220.0, TURTLE_R, 0.0), [], [], false, board)
  }

  /** resetWorld (main.js:161-172). */
  function Reset(w: World): (n: World)
    ensures n.turtle == Turtle(140.0, 280.0, w.turtle.r, 0.0)
    ensures n.jellys == [] && n.pearls == [] && n.score == 0 && n.accSpawn == 0.0
    ensures n.state == w.state && n.diving == w.diving && n.board == w.board
  {
    w.(turtle := w.turtle.(x := 140.0, y := 280.0, vy := 0.0),
       jellys := [], pearls := [], score := 0, accSpawn := 0.0)
  }

  /** startGame (main.js:132-138). */
  function Started(w: World): World { Reset(w.(state := Playing)) }

  /** resetToMenu (main.js:140-147). */
  function AtMenu(w: World): World { Reset(w.(state := Menu)) }

  /** handlePressStart (main.js:103-106). */
  function Pressed(w: World): World
  {
    (if w.state == Menu || w.state == GameOver then Started(w) else w).(diving := true)
  }

  /** handlePressEnd (main.js:107). */
  function Released(w: World): World { w.(diving := false) }

  // ------------------------------------------------------ properties

  /** update is a no-op outside a running game. */
  lemma StepGated(w: World, dt: real, env: Env)
    requires w.state != Playing
    ensures Step(w, dt, env) == w
  {
  }

  /** Seabed contact ends the game before any collision is looked at: score
      and pearls are as they stood after culling, yet spawning, drifting
      and culling of that tick have happened. */
  lemma SeabedDeath(w: World, dt: real, env: Env)
    requires w.state == Playing
    requires OnSeabed(Advanced(w, dt, env).turtle)
    ensures var a, n := Advanced(w, dt, env), Step(w, dt, env);
            n.state == GameOver && n.score == w.score
            && n.jellys == a.jellys && n.pearls == a.pearls && n.turtle == a.turtle
            && a.jellys == Filter(MoveJellys(SpawnPhase(w, dt, env.draws).jellys, dt, env.sine), JellyOnScreen)
            && a.pearls == Filter(MovePearls(SpawnPhase(w, dt, env.draws).pearls, dt), PearlOnScreen)
            && n.board == AddScore(w.board, PlayerName(env.nameField), w.score, env.now)
  {
  }

  /** A sting ends the game: score and pearls are unchanged by the tick's
      collision step. */
  lemma StingDeath(w: World, dt: real, env: Env)
    requires w.state == Playing
    requires !OnSeabed(Advanced(w, dt, env).turtle)
    requires StungBy(Advanced(w, dt, env).turtle, Advanced(w, dt, env).jellys)
    ensures var a, n := Advanced(w, dt, env), Step(w, dt, env);
            n.state == GameOver && n.score == w.score
            && n.jellys == a.jellys && n.pearls == a.pearls
            && n.board == AddScore(w.board, PlayerName(env.nameField), w.score, env.now)
  {
  }

  /** Without a death the game goes on, and the score grows by exactly the
      number of pearls the turtle touches; exactly those are removed and the
      rest keep their order. */
  lemma {:induction false} PickupTick(w: World, dt: real, env: Env)
    requires w.state == Playing
    requires !OnSeabed(Advanced(w, dt, env).turtle)
    requires !StungBy(Advanced(w, dt, env).turtle, Advanced(w, dt, env).jellys)
    ensures var a, n := Advanced(w, dt, env), Step(w, dt, env);
            n.state == Playing && n.board == w.board && n.jellys == a.jellys
            && n.score == w.score + |Caught(a.turtle, a.pearls)|
            && |n.pearls| + |Caught(a.turtle, a.pearls)| == |a.pearls|
            && (forall p :: p in n.pearls <==> p in a.pearls && !Touches(a.turtle, p))
            && IsSubsequence(n.pearls, a.pearls)
  {
    var a := Advanced(w, dt, env);
    PickupPartition(a.turtle, a.pearls);
  }

  /** After a running tick the jellyfish left are exactly the moved ones
      filtered by the on-screen test; the pearls left are the moved ones so
      filtered, and on a tick that does not end the game, those of them the
      turtle does not touch. Hence every entity left is on screen, each
      on-screen jellyfish survives as often as it was there, and survivors
      keep their order. */
  lemma CullTick(w: World, dt: real, env: Env)
    requires w.state == Playing
    ensures var n, a := Step(w, dt, env), Advanced(w, dt, env);
            var s := SpawnPhase(w, dt, env.draws);
            var movedJ, movedP := MoveJellys(s.jellys, dt, env.sine), MovePearls(s.pearls, dt);
            var dies := OnSeabed(a.turtle) || StungBy(a.turtle, a.jellys);
            n.jellys == Filter(movedJ, JellyOnScreen)
            && (dies ==> n.pearls == Filter(movedP, PearlOnScreen))
            && (!dies ==> n.pearls == Kept(a.turtle, Filter(movedP, PearlOnScreen)))
            && (forall k :: 0 <= k < |n.jellys| ==> JellyOnScreen(n.jellys[k]))
            && (forall k :: 0 <= k < |n.pearls| ==> PearlOnScreen(n.pearls[k]))
            && (forall j :: multiset(n.jellys)[j] == if JellyOnScreen(j) then multiset(movedJ)[j] else 0)
            && (forall p :: p in n.pearls ==> p in movedP && PearlOnScreen(p))
            && IsSubsequence(n.jellys, movedJ)
  {
    var s := SpawnPhase(w, dt, env.draws);
    var a := Advanced(w, dt, env);
    var movedJ, movedP := MoveJellys(s.jellys, dt, env.sine), MovePearls(s.pearls, dt);
    assert a.jellys == Filter(movedJ, JellyOnScreen) && a.pearls == Filter(movedP, PearlOnScreen);
    FilterCount(movedJ, JellyOnScreen);
    FilterMembers(movedP, PearlOnScreen);
    FilterSubsequence(movedJ, JellyOnScreen);
    PickupPartition(a.turtle, a.pearls);
    FilterPreserves(a.pearls, Missing(a.turtle), PearlOnScreen);
  }

  /** A tick appends at most one entity, at the right edge and inside the
      spawn band, a jellyfish exactly when the kind draw is below 0.55. */
  lemma SpawnTick(w: World, dt: real, d: Draws)
    requires d.Valid()
    requires w.accSpawn + dt * 1000.0 >= SPAWN_EVERY
    ensures var n := SpawnPhase(w, dt, d);
            n.accSpawn == 0.0
            && (d.kind < JELLY_ODDS ==>
                  n.pearls == w.pearls && |n.jellys| == |w.jellys| + 1
                  && var j := n.jellys[|w.jellys|];
                     j.x == SPAWN_X && j.r == JELLY_R && 80.0 <= j.y <= 349.0)
            && (d.kind >= JELLY_ODDS ==>
                  n.jellys == w.jellys && |n.pearls| == |w.pearls| + 1
                  && var p := n.pearls[|w.pearls|];
                     p.x == SPAWN_X && p.r == PEARL_R && 80.0 <= p.y <= 349.0)
  {
  }

  /** The score never goes down during a tick. */
  lemma StepScoreMonotone(w: World, dt: real, env: Env)
    ensures Step(w, dt, env).score >= w.score
  {
  }

  /** The leaderboard is written only by the tick that ends a game. */
  lemma BoardWrittenOnlyAtEnd(w: World, dt: real, env: Env)
    requires Step(w, dt, env).board != w.board
    ensures w.state == Playing && Step(w, dt, env).state == GameOver
  {
  }

  /** Spawning pushes only entities of the spawn shape. */
  lemma SpawnKeepsShape(w: World, dt: real, d: Draws)
    requires d.Valid()
    requires forall k :: 0 <= k < |w.jellys| ==> JellyShaped(w.jellys[k])
    requires forall k :: 0 <= k < |w.pearls| ==> PearlShaped(w.pearls[k])
    ensures var n := SpawnPhase(w, dt, d);
            (forall k :: 0 <= k < |n.jellys| ==> JellyShaped(n.jellys[k]))
            && (forall k :: 0 <= k < |n.pearls| ==> PearlShaped(n.pearls[k]))
  {
  }

  /** Drifting keeps the shapes and culling then leaves only entities on
      screen. */
  lemma DriftKeepsGood(w: World, dt: real, sine: real -> real)
    requires forall k :: 0 <= k < |w.jellys| ==> JellyShaped(w.jellys[k])
    requires forall k :: 0 <= k < |w.pearls| ==> PearlShaped(w.pearls[k])
    ensures var n := DriftPhase(w, dt, sine);
            (forall k :: 0 <= k < |n.jellys| ==> GoodJelly(n.jellys[k]))
            && (forall k :: 0 <= k < |n.pearls| ==> GoodPearl(n.pearls[k]))
  {
    var movedJ, movedP := MoveJellys(w.jellys, dt, sine), MovePearls(w.pearls, dt);
    assert forall k :: 0 <= k < |movedJ| ==> JellyShaped(movedJ[k]);
    assert forall k :: 0 <= k < |movedP| ==> PearlShaped(movedP[k]);
    FilterPreserves(movedJ, JellyOnScreen, JellyShaped);
    FilterPreserves(movedP, PearlOnScreen, PearlShaped);
  }

  /** The turtle physics keep a good turtle good. */
  lemma PhysicsKeepsTurtle(t: Turtle, diving: bool, dt: real)
    requires GoodTurtle(t)
    ensures GoodTurtle(SurfaceClamp(Integrate(t, diving, dt)))
  {
  }

  /** Every tick keeps the invariant. */
  lemma StepKeepsGood(w: World, dt: real, env: Env)
    requires Good(w) && env.draws.Valid()
    ensures Good(Step(w, dt, env))
  {
    if w.state == Playing {
      var s := SpawnPhase(w, dt, env.draws);
      SpawnKeepsShape(w, dt, env.draws);
      DriftKeepsGood(s, dt, env.sine);
      PhysicsKeepsTurtle(w.turtle, w.diving, dt);
      var a := Advanced(w, dt, env);
      assert a.jellys == DriftPhase(s, dt, env.sine).jellys;
      assert a.pearls == DriftPhase(s, dt, env.sine).pearls;
      FilterPreserves(a.pearls, Missing(a.turtle), GoodPearl);
    }
  }

  // --------------------------------------------------------- over many ticks

  /** Once a game is over (or not started), further updates change nothing:
      the world, score and leaderboard are frozen. */
  lemma {:induction false} RunFrozen(w: World, ins: seq<Input>)
    requires w.state != Playing
    ensures Run(w, ins) == w
    decreases |ins|
  {
    if |ins| > 0 {
      RunFrozen(w, ins[1..]);
    }
  }

  /** Within a sequence of updates the score never decreases. */
  lemma {:induction false} RunScoreMonotone(w: World, ins: seq<Input>)
    ensures Run(w, ins).score >= w.score
    decreases |ins|
  {
    if |ins| > 0 {
      RunScoreMonotone(Step(w, ins[0].dt, ins[0].env), ins[1..]);
    }
  }

  /** Every update keeps the invariant, so every world reached does. */
  lemma {:induction false} RunKeepsGood(w: World, ins: seq<Input>)
    requires Good(w)
    requires forall k :: 0 <= k < |ins| ==> ins[k].env.draws.Valid()
    ensures Good(Run(w, ins))
    decreases |ins|
  {
    if |ins| > 0 {
      StepKeepsGood(w, ins[0].dt, ins[0].env);
      RunKeepsGood(Step(w, ins[0].dt, ins[0].env), ins[1..]);
    }
  }

  /** The number of updates in a run that end a game. */
  function Endings(w: World, ins: seq<Input>): nat
    decreases |ins|
  {
    if |ins| == 0 then 0
    else
      var n := Step(w, ins[0].dt, ins[0].env);
      (if w.state == Playing && n.state == GameOver then 1 else 0) + Endings(n, ins[1..])
  }

  lemma {:induction false} FrozenEndings(w: World, ins: seq<Input>)
    requires w.state != Playing
    ensures Endings(w, ins) == 0
    decreases |ins|
  {
    if |ins| > 0 {
      FrozenEndings(w, ins[1..]);
    }
  }

  /** Without a restart a run ends at most one game, so the final score is
      handed to the leaderboard at most once. */
  lemma {:induction false} EndsAtMostOnce(w: World, ins: seq<Input>)
    ensures Endings(w, ins) <= 1
    decreases |ins|
  {
    if |ins| > 0 {
      var n := Step(w, ins[0].dt, ins[0].env);
      if w.state == Playing && n.state == GameOver {
        FrozenEndings(n, ins[1..]);
      } else {
        EndsAtMostOnce(n, ins[1..]);
      }
    }
  }

  /** Starting a game gives the canonical fresh world from any state. */
  lemma StartCanonical(w: World)
    requires Good(w)
    ensures var n := Started(w);
            n.state == Playing && n.score == 0 && n.accSpawn == 0.0
            && n.jellys == [] && n.pearls == [] && n.turtle == Turtle(140.0, 280.0, TURTLE_R, 0.0)
            && Good(n)
  {
  }

  /** resetToMenu is idempotent and yields the canonical menu world. */
  lemma AtMenuIdempotent(w: World)
    ensures AtMenu(AtMenu(w)) == AtMenu(w)
    ensures var n := AtMenu(w);
            n.state == Menu && n.score == 0 && n.accSpawn == 0.0
            && n.jellys == [] && n.pearls == []
  {
  }

  /** A press starts a game only from the menu or the game-over screen; in
      a running game it only sets the dive flag. */
  lemma PressedGate(w: World)
    ensures w.state == Playing ==> Pressed(w) == w.(diving := true)
    ensures w.state != Playing ==> Pressed(w) == Started(w).(diving := true)
  {
  }

  // -------------------------------------------------------------- scenarios

  /** The world right after startGame with one extra entity placed. */
  function FreshWith(jellys: seq<Jelly>, pearls: seq<Pearl>): World
  {
    Started(Initial([])).(jellys := jellys, pearls := pearls)
  }

  /** The turtle of a freshly started game, not diving, after one step of
      at most 33 ms: buoyancy has lifted it by at most a pixel (y grows
      downward) and nothing else happened to it. */
  lemma FreshTurtleStep(w: World, dt: real)
    requires w.turtle == Turtle(140.0, 280.0, TURTLE_R, 0.0) && !w.diving
    requires 0.0 <= dt <= MAX_DT
    ensures var t := SurfaceClamp(Integrate(w.turtle, w.diving, dt));
            t.x == 140.0 && t.r == TURTLE_R && 279.0 <= t.y <= 280.0
  {
    var i := Integrate(w.turtle, w.diving, dt);
    assert i.vy == -500.0 * dt;
    MulNonneg(dt, dt);
    MulNonneg(dt, MAX_DT - dt);
    assert dt * dt <= MAX_DT * dt <= MAX_DT * MAX_DT;
    assert i.y == 280.0 - 500.0 * (dt * dt);
    assert 279.0 <= i.y <= 280.0;
    assert SurfaceClamp(i) == i;
  }

  /** Centres within 10 pixels across and 2 down are inside the sting reach. */
  lemma CloseStings(t: Turtle, j: Jelly)
    requires t.r == TURTLE_R && j.r == JELLY_R
    requires -10.0 <= t.x - j.x <= 10.0 && -2.0 <= t.y - j.y <= 2.0
    ensures Stings(t, j)
  {
    SquareBound(t.x - j.x, 10.0);
    SquareBound(t.y - j.y, 2.0);
  }

  /** Centres within 10 pixels across and 1 down are inside the pickup reach. */
  lemma CloseTouches(t: Turtle, p: Pearl)
    requires t.r == TURTLE_R && p.r == PEARL_R
    requires -10.0 <= t.x - p.x <= 10.0 && -1.0 <= t.y - p.y <= 1.0
    ensures Touches(t, p)
  {
    SquareBound(t.x - p.x, 10.0);
    SquareBound(t.y - p.y, 1.0);
  }

  /** A jellyfish of radius 24 ten pixels ahead of a freshly started turtle
      ends the game on the next update of any step between 0 and 33 ms, for
      a bounded sine: the centres stay within 10 pixels horizontally and 2
      vertically, well inside the sting reach of 42. */
  lemma StingScenario(dt: real, env: Env)
    requires 0.0 <= dt <= MAX_DT
    requires forall t :: -1.0 <= env.sine(t) <= 1.0
    ensures Step(FreshWith([Jelly(150.0, 280.0, JELLY_R, 0.0)], []), dt, env).state == GameOver
  {
    var j0 := Jelly(150.0, 280.0, JELLY_R, 0.0);
    var w := FreshWith([j0], []);
    var s := SpawnPhase(w, dt, env.draws);
    assert s.jellys == [j0];
    var j := MoveJelly(j0, dt, env.sine);
    JellyBob(j0, dt, env.sine);
    assert MoveJellys([j0], dt, env.sine) == [j];
    FilterCons(j, [], JellyOnScreen);
    FreshTurtleStep(s, dt);
    var a := Advanced(w, dt, env);
    assert a.jellys == [j];
    CloseStings(a.turtle, j);
  }

  /** A pearl of radius 10 ten pixels ahead of a freshly started turtle is
      collected on the next update of any step between 0 and 33 ms and
      scores one: the centres stay within 10 pixels horizontally and 1
      vertically, inside the reach of 30. */
  lemma PickupScenario(dt: real, env: Env)
    requires 0.0 <= dt <= MAX_DT
    ensures var n := Step(FreshWith([], [Pearl(150.0, 280.0, PEARL_R)]), dt, env);
            n.state == Playing && n.score == 1 && n.pearls == []
  {
    var p0 := Pearl(150.0, 280.0, PEARL_R);
    var w := FreshWith([], [p0]);
    var s := SpawnPhase(w, dt, env.draws);
    assert s.pearls == [p0] && s.jellys == [];
    var p := MovePearl(p0, dt);
    assert MovePearls([p0], dt) == [p];
    FilterCons(p, [], PearlOnScreen);
    FreshTurtleStep(s, dt);
    var a := Advanced(w, dt, env);
    assert a.pearls == [p] && a.jellys == [];
    CloseTouches(a.turtle, p);
    FilterCons(p, [], Touching(a.turtle));
    FilterCons(p, [], Missing(a.turtle));
  }

  /** A turtle one pixel into the seabed that is not moving up dies on the
      next update of any step in [0, 0.033], whether or not the dive is
      held. (A clock running backwards gives a negative step, which can lift
      it off the seabed.) */
  lemma SeabedScenario(w: World, dt: real, env: Env)
    requires w.state == Playing && w.turtle.r == TURTLE_R
    requires w.turtle.y == SEABED_Y - TURTLE_R + 1.0 && w.turtle.vy >= 0.0
    requires 0.0 <= dt <= MAX_DT
    ensures Step(w, dt, env).state == GameOver
  {
    ShortFrameRise(w.turtle, w.diving, dt);
    var s := DriftPhase(SpawnPhase(w, dt, env.draws), dt, env.sine);
    assert s.turtle == w.turtle && s.diving == w.diving;
  }

  /** The same for the step the frame clock computes, whenever the clock
      does not run backwards. */
  lemma SeabedOnFrame(w: World, ts: real, last: real, env: Env)
    requires w.state == Playing && w.turtle.r == TURTLE_R
    requires w.turtle.y == SEABED_Y - TURTLE_R + 1.0 && w.turtle.vy >= 0.0
    requires last <= ts
    ensures Step(w, FrameDt(Finite(ts), Finite(last)), env).state == GameOver
  {
    MonotoneClockStep(ts, last);
    SeabedScenario(w, FrameDt(Finite(ts), Finite(last)), env);
  }

  /** In one frame the clock can produce, a turtle that is not moving up
      rises by less than 0.55 pixels. */
  lemma ShortFrameRise(t: Turtle, diving: bool, dt: real)
    requires t.vy >= 0.0 && 0.0 <= dt <= MAX_DT
    ensures Integrate(t, diving, dt).y > t.y - 0.55
  {
    var vy := Integrate(t, diving, dt).vy;
    assert vy >= -500.0 * dt;
    MulNonneg(vy + 500.0 * dt, dt);
    MulNonneg(dt, MAX_DT - dt);
    assert vy * dt >= -500.0 * MAX_DT * dt;
  }

  /** One iteration of the backward pickup loop: splicing out the pearl at
      i - 1 exactly when it is touched extends the processed suffix by one. */
  lemma SpliceStep(t: Turtle, ps: seq<Pearl>, kept: seq<Pearl>, i: nat)
    requires 0 < i <= |ps|
    requires kept == ps[..i] + Kept(t, ps[i..])
    ensures kept[i - 1] == ps[i - 1]
    ensures var r := t.r + ps[i - 1].r;
            Dist2(t.x, t.y, ps[i - 1].x, ps[i - 1].y) < r * r <==> Touches(t, ps[i - 1])
    ensures Touches(t, ps[i - 1]) ==>
              kept[..i - 1] + kept[i..] == ps[..i - 1] + Kept(t, ps[i - 1..])
              && |Caught(t, ps[i - 1..])| == |Caught(t, ps[i..])| + 1
    ensures !Touches(t, ps[i - 1]) ==>
              kept == ps[..i - 1] + Kept(t, ps[i - 1..])
              && |Caught(t, ps[i - 1..])| == |Caught(t, ps[i..])|
  {
    PickupStep(t, ps, i - 1);
    assert ps[..i] == ps[..i - 1] + [ps[i - 1]];
    if Touches(t, ps[i - 1]) {
      assert kept[..i - 1] == ps[..i - 1];
      assert kept[i..] == Kept(t, ps[i..]);
    }
  }

  // ------------------------------------------------------------ the object

  /** The mutable game state of main.js. */
  class Game {
    var state: Phase
    var accSpawn: real
    var score: nat
    var turtle: Turtle
    var jellys: seq<Jelly>
    var pearls: seq<Pearl>
    var diving: bool
    var board: seq<Entry>
    /** The previous frame's timestamp, in milliseconds. */
    var last: Num

    function Snapshot(): World
      reads this
    {
      World(state, accSpawn, score, turtle, jellys, pearls, diving, board)
    }

    predicate Valid()
      reads this
    {
      Good(Snapshot())
    }

    /** Module initialisation (main.js:26-45) followed by the resetToMenu
        call the script makes on load (main.js:397); `stored` is the
        leaderboard read from storage. */
    constructor (stored: seq<Entry>)
      ensures Snapshot() == AtMenu(Initial(stored)) && last == Finite(0.0)
      ensures Valid()
    {
      state := Menu;
      accSpawn := 0.0;
      score := 0;
      turtle := Turtle(160.0, 220.0, TURTLE_R, 0.0);
      jellys := [];
      pearls := [];
      diving := false;
      board := stored;
      last := Finite(0.0);
      new;
      ResetToMenu();
    }

    method ResetWorld()
      modifies this
      ensures Snapshot() == Reset(old(Snapshot())) && last == old(last)
    {
      turtle := turtle.(x := 140.0);
      turtle := turtle.(y := 280.0);
      turtle := turtle.(vy := 0.0);
      jellys := [];
      pearls := [];
      score := 0;
      accSpawn := 0.0;
    }

    method StartGame()
      requires Valid()
      modifies this
      ensures Snapshot() == Started(old(Snapshot())) && last == old(last)
      ensures Valid()
    {
      state := Playing;
      ResetWorld();
    }

    method ResetToMenu()
      requires Valid()
      modifies this
      ensures Snapshot() == AtMenu(old(Snapshot())) && last == old(last)
      ensures Valid()
    {
      state := Menu;
      ResetWorld();
    }

    method GameOver(nameField: string, now: string)
      modifies this
      ensures Snapshot() == Finish(old(Snapshot()), nameField, now)
      ensures last == old(last)
    {
      state := Phase.GameOver;
      var player := PlayerName(nameField);
      board := AddScore(board, player, score, now);
    }

    method HandlePressStart()
      requires Valid()
      modifies this
      ensures Snapshot() == Pressed(old(Snapshot())) && last == old(last)
      ensures Valid()
    {
      if state == Menu || state == Phase.GameOver {
        StartGame();
      }
      diving := true;
    }

    method HandlePressEnd()
      modifies this
      ensures Snapshot() == Released(old(Snapshot())) && last == old(last)
    {
      diving := false;
    }

    /** The for-of loop of main.js:200-204: each jellyfish drifts, advances
        its phase and bobs. */
    method AdvanceJellys(dt: real, sine: real -> real)
      modifies this
      ensures Snapshot() == old(Snapshot()).(jellys := MoveJellys(old(jellys), dt, sine))
      ensures last == old(last)
    {
      var js := jellys;
      var i := 0;
      while i < |js|
        invariant 0 <= i <= |js| == |jellys|
        invariant forall k :: 0 <= k < i ==> js[k] == MoveJelly(jellys[k], dt, sine)
        invariant forall k :: i <= k < |js| ==> js[k] == jellys[k]
      {
        var j := js[i];
        j := j.(x := j.x - HAZARD_SPEED * dt);
        j := j.(phase := j.phase + dt * BOB_RATE);
        j := j.(y := j.y + sine(j.phase) * BOB_AMPLITUDE * dt);
        js := js[i := j];
        i := i + 1;
      }
      jellys := js;
    }

    /** The loop of main.js:205: each pearl drifts left. */
    method AdvancePearls(dt: real)
      modifies this
      ensures Snapshot() == old(Snapshot()).(pearls := MovePearls(old(pearls), dt))
      ensures last == old(last)
    {
      var ps := pearls;
      var i := 0;
      while i < |ps|
        invariant 0 <= i <= |ps| == |pearls|
        invariant forall k :: 0 <= k < i ==> ps[k] == MovePearl(pearls[k], dt)
        invariant forall k :: i <= k < |ps| ==> ps[k] == pearls[k]
      {
        var p := ps[i];
        ps := ps[i := p.(x := p.x - PEARL_SPEED * dt)];
        i := i + 1;
      }
      pearls := ps;
    }

    /** The spawn timer of main.js:196-197. */
    method SpawnStep(dt: real, d: Draws)
      modifies this
      ensures Snapshot() == SpawnPhase(old(Snapshot()), dt, d) && last == old(last)
    {
      accSpawn := accSpawn + dt * 1000.0;
      if accSpawn >= SPAWN_EVERY {
        accSpawn := 0.0;
        match SpawnEntity(d)
        case NewJelly(j) => jellys := jellys + [j];
        case NewPearl(p) => pearls := pearls + [p];
      }
    }

    /** Moving and culling, main.js:200-207. */
    method DriftStep(dt: real, sine: real -> real)
      modifies this
      ensures Snapshot() == DriftPhase(old(Snapshot()), dt, sine) && last == old(last)
    {
      AdvanceJellys(dt, sine);
      AdvancePearls(dt);
      jellys := Filter(jellys, JellyOnScreen);
      pearls := Filter(pearls, PearlOnScreen);
    }

    /** The turtle's physics and surface clamp, main.js:210-219. */
    method PhysicsStep(dt: real)
      modifies this
      ensures Snapshot() == PhysicsPhase(old(Snapshot()), dt) && last == old(last)
    {
      var t := turtle;
      var accel := if diving then DIVE_ACCEL else BUOYANCY;
      t := t.(vy := t.vy + accel * dt);
      t := t.(vy := Max(-MAX_VY, Min(MAX_VY, t.vy)));
      t := t.(y := t.y + t.vy * dt);
      assert t == Integrate(turtle, diving, dt);
      if t.y - t.r < SURFACE_Y {
        t := t.(y := SURFACE_Y + t.r);
        if t.vy < 0.0 {
          t := t.(vy := 0.0);
        }
      }
      turtle := t;
    }

    /** The sting test of main.js:223-226: true when some jellyfish stings. */
    method HitsHazard() returns (hit: bool)
      ensures hit <==> StungBy(turtle, jellys)
    {
      var i := 0;
      while i < |jellys|
        invariant 0 <= i <= |jellys|
        invariant forall k :: 0 <= k < i ==> !Stings(turtle, jellys[k])
      {
        var j := jellys[i];
        var r := turtle.r + j.r - STING_SLACK;
        if Dist2(turtle.x, turtle.y, j.x, j.y) < r * r {
          return true;
        }
        i := i + 1;
      }
      return false;
    }

    /** The pickup loop of main.js:228-235: walk the pearls from the last
        to the first, splicing out each one the turtle touches and counting
        it. */
    method CollectPearls()
      modifies this
      ensures Snapshot() == Collect(old(Snapshot())) && last == old(last)
    {
      var t, ps := turtle, pearls;
      var kept := ps;
      var gained := 0;
      // i counts the pearls not yet visited; the one visited next is at i - 1
      var i := |ps|;
      while i > 0
        invariant 0 <= i <= |ps|
        invariant kept == ps[..i] + Kept(t, ps[i..])
        invariant gained == |Caught(t, ps[i..])|
        invariant unchanged(this)
      {
        var p := kept[i - 1];
        SpliceStep(t, ps, kept, i);
        var r := t.r + p.r;
        if Dist2(t.x, t.y, p.x, p.y) < r * r {
          kept := kept[..i - 1] + kept[i..];
          gained := gained + 1;
        }
        i := i - 1;
      }
      assert ps[0..] == ps;
      pearls := kept;
      score := score + gained;
    }

    /** update(dt) (main.js:192-236). */
    method Update(dt: real, env: Env)
      requires Valid() && env.draws.Valid()
      modifies this
      ensures Snapshot() == Step(old(Snapshot()), dt, env) && last == old(last)
      ensures Valid()
    {
      StepKeepsGood(Snapshot(), dt, env);
      if state != Playing {
        return;
      }
      SpawnStep(dt, env.draws);
      DriftStep(dt, env.sine);
      PhysicsStep(dt);
      if turtle.y + turtle.r > SEABED_Y {
        GameOver(env.nameField, env.now);
        return;
      }
      var stung := HitsHazard();
      if stung {
        GameOver(env.nameField, env.now);
        return;
      }
      CollectPearls();
    }

    /** One animation frame (main.js:378-383) without the drawing. */
    method Loop(ts: Num, env: Env)
      requires Valid() && env.draws.Valid()
      modifies this
      ensures Snapshot() == Step(old(Snapshot()), FrameDt(ts, old(last)), env)
      ensures last == ts
      ensures Valid()
    {
      var dt := FrameDt(ts, last);
      last := ts;
      Update(dt, env);
    }
  }
}
