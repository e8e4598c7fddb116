# Turtle game: verified model of the simulation core

This project models the core of `main.js`, a browser side-scroller. A
turtle swims behind a left-scrolling stream of jellyfish (hazards) and
pearls (pickups). It rises by buoyancy and dives while a key or the mouse button
is held. The game ends when the turtle touches the seabed or is stung.
Every pearl it touches scores one. At the end, the score goes onto a
top-ten leaderboard.

The model has five modules:

- `Seqs` (seqs.dfy): `Filter`, with the semantics of `Array.prototype.filter`, and its lemmas.
- `Ocean` (ocean.dfy): the game constants and the turtle, jellyfish and pearl records. Also spawning, drifting, the turtle's physics and the collision tests.
- `Scores` (scores.dfy): the player-name rules (`trim`, the anonymous fallback, the 16-character clip) and the pure list transformation of `addScoreToLB`.
- `Frames` (frames.dfy): the time step that `loop` computes from the animation timestamps.
- `Session` (session.dfy): the session state machine and the per-frame update.
  - `World` is a value holding the module-level state of `main.js`.
  - `Step`, `Started`, `AtMenu`, `Pressed`, `Released` and `Finish` give the meaning of each transition on a `World`.
  - The class `Game` holds the same state in mutable fields. `Update` mirrors `update(dt)` statement by statement and is proved to change the fields exactly as `Step` says.
  - The properties are proved as lemmas about `Step` and `Run`, the sequence of ticks.

`Math.random` is replaced by the three draws a spawn consumes (`Draws`), each in [0, 1). `Math.sin` is a function parameter. The text of the name field and the current date are parameters of the update (`Env`). Positions, speeds and times are `real`. The canvas is fixed at 800 × 450, so the seabed is at 390 and entities enter at x = 840. The leaderboard in storage is modelled as the `board` field, which only the game-over transition writes.

Four behaviours of the code are easy to miss; the model follows the code in each:

- `loop` does not clamp a negative time step; only the upper bound of 0.033 s applies.
- The first frame's step is `min(0.033, ts / 1000)`, because `last` starts at 0. It is not zero.
- On a tick that ends at the seabed, spawning, drifting and culling have already changed the entity lists. Only the collision and scoring steps are skipped.
- The turtle literal (160, 220) is overwritten on load by `resetToMenu`, so every game starts at (140, 280).

## Model

| member | source | states |
|---|---|---|
| Seqs.Filter | main.js:206-207 | the result is no longer than the input and every element kept satisfies the predicate |
| Seqs.FilterCount | main.js:206-207 | each value occurs in the result exactly as often as in the input when it satisfies the predicate, else never |
| Seqs.FilterMembers | main.js:206-207 | a value survives the filter if and only if it is in the input and satisfies the predicate |
| Seqs.FilterSubsequence | main.js:206-207 | the survivors keep their relative order: the result is a subsequence of the input |
| Seqs.FilterPreserves | main.js:206-207 | a property held by every input element is held by every survivor |
| Seqs.FilterAppend | main.js:206-207 | filtering a concatenation is the concatenation of the filtered parts |
| Seqs.FilterComplement | main.js:228-235 | filtering by a predicate and by its negation splits the input: lengths and multisets add up to the input's |
| Ocean.SpawnHeight | main.js:181 | the floor of 80 + u·270 is a whole number in [80, 349] for every draw u in [0, 1) |
| Ocean.SpawnEntity | main.js:179-188 | a jellyfish of radius 24 exactly when the kind draw is below 0.55, else a pearl of radius 10; it enters at x = 840 at the spawn height; a jellyfish's phase is in [0, 2π) |
| Ocean.MoveJelly | main.js:200-204 | x falls by 180·dt, the phase grows by 2.5·dt, y moves by sin(new phase)·18·dt, and the radius is kept |
| Ocean.JellyBob | main.js:203 | with a sine bounded by [-1, 1], a jellyfish moves vertically by at most 18·abs(dt) |
| Ocean.MovePearl | main.js:205 | x falls by 220·dt; height and radius are kept |
| Ocean.MoveJellys | main.js:200-204 | every jellyfish is moved, in place and in order |
| Ocean.MovePearls | main.js:205 | every pearl is moved, in place and in order |
| Ocean.Min | main.js:212 | definition: `Math.min` on two reals |
| Ocean.Max | main.js:212 | definition: `Math.max` on two reals |
| Ocean.ClampSpeed | main.js:212 | the speed lies in [-520, 520], is unchanged inside that range, and is the bound it exceeds otherwise |
| Ocean.Integrate | main.js:210-213 | the new speed is the clamped sum of the old speed and the acceleration times dt; y moves by the clamped speed times dt; x and r are kept |
| Ocean.SurfaceClamp | main.js:216-219 | afterwards y - r >= 40; when the clamp fires, y = 40 + r and the speed is max(vy, 0) >= 0, otherwise the turtle is unchanged; the speed bound is preserved |
| Ocean.JellyOnScreen | main.js:206 | definition: the filter condition that keeps a jellyfish, x + r > -20 |
| Ocean.PearlOnScreen | main.js:207 | definition: the filter condition that keeps a pearl, x + r > -20 |
| Ocean.Accel | main.js:210 | definition: 900 while diving, -500 otherwise |
| Ocean.OnSeabed | main.js:220 | definition: the seabed death test y + r > 390 |
| Ocean.Stings | main.js:224-225 | definition: the squared distance is below (turtle.r + j.r - 2)^2 |
| Ocean.Touches | main.js:230-231 | definition: the squared distance is below (turtle.r + p.r)^2 |
| Ocean.StungBy | main.js:223-226 | definition: some jellyfish in the list stings the turtle, the condition under which the loop calls gameOver |
| Ocean.Caught | main.js:228-235 | definition: the pearls the splice loop removes, the touched ones in their order |
| Ocean.Kept | main.js:228-235 | definition: the pearls the splice loop leaves, the untouched ones in their order |
| Ocean.Dist2 | main.js:190 | the squared distance is non-negative and zero for coincident points |
| Ocean.Dist2Symmetric | main.js:190 | swapping the two points does not change the squared distance |
| Ocean.PickupPartition | main.js:228-235 | kept and caught pearls partition the pearls (length and multiset); a pearl is kept if and only if it is untouched and caught if and only if it is touched; the kept ones keep their order |
| Ocean.PickupStep | main.js:228-235 | visiting the pearl at i drops and counts it exactly when the turtle touches it |
| Scores.IsSpace | main.js:151 | definition: the characters `trim()` removes, the ECMAScript WhiteSpace and LineTerminator code points |
| Scores.LeadingSpaces | main.js:151 | counts the white-space prefix: all counted characters are white space and the next one is not |
| Scores.TrailingSpaces | main.js:151 | counts the white-space suffix: all counted characters are white space and the one before is not |
| Scores.Trim | main.js:151 | the trimmed name is the contiguous slice of the field that starts after its leading white space |
| Scores.TrimEnds | main.js:151 | the trimmed name neither starts nor ends with white space, and only white space follows it in the field |
| Scores.TrimEmpty | main.js:151 | trimming leaves nothing exactly when the field is all white space |
| Scores.OrAnonymous | main.js:65 | the empty name becomes "Anónimo"; any other name is kept; the result is never empty |
| Scores.PlayerName | main.js:151 | the recorded name is never empty; it is exactly the trimmed field whenever that is non-empty, and "Anónimo" whenever the field is all white space |
| Scores.Clip | main.js:51 | at most the first 16 characters, a prefix of the input, unchanged when it is short enough |
| Scores.LoadName | main.js:50-52 | a missing entry reads as the empty name; a stored one is clipped to its first 16 characters (`Clip`) |
| Scores.SavedName | main.js:53-55 | the saved value is the given name clipped to its first 16 characters (`Clip`): a prefix of at most 16 characters |
| Scores.SaveLoadRoundTrip | main.js:50-55 | reading after a save returns what was saved, and saving twice is the same as saving once |
| Scores.Insert | main.js:66 | insertion adds one entry to the list |
| Scores.InsertCount | main.js:66 | insertion adds exactly the new entry, as a multiset and by membership |
| Scores.InsertSorted | main.js:66 | inserting into a list sorted by descending score keeps it sorted |
| Scores.SortByScore | main.js:66 | the sort is a permutation sorted by descending score |
| Scores.SortStable | main.js:66 | for every score, the entries with that score keep their original order, so the sort is stable |
| Scores.InsertWithScore | main.js:66 | in a sorted list, the inserted entry comes after every entry with the same score |
| Scores.AddScore | main.js:62-70 | the board has min(old length + 1, 10) entries, is sorted by descending score, and holds only entries of the old board and the new entry |
| Scores.AddScoreKeepsBest | main.js:62-70 | every entry kept scores at least as much as every entry cut, so the board is the top ten of the old board plus the new entry |
| Scores.AddScoreStable | main.js:62-70 | among entries of equal score, the board lists a prefix of them in insertion order, the new entry last |
| Frames.FrameDt | main.js:379 | the step is at most 0.033 s; it is 0 on NaN; it is non-negative for a monotone clock; it is the elapsed time in seconds when short and exactly 0.033 when long |
| Frames.MonotoneClockStep | main.js:379 | a clock that does not run backwards yields a step in [0, 0.033] |
| Session.Initial | main.js:26-45 | definition: the module state before the load-time reset, turtle literal at (160, 220) |
| Session.DriftPhase | main.js:200-207 | definition: move every entity, then cull; `Game.DriftStep` is proved equal to it |
| Session.PhysicsPhase | main.js:210-219 | definition: `Integrate` then `SurfaceClamp`; `Game.PhysicsStep` is proved equal to it |
| Session.Advanced | main.js:195-219 | definition: spawn, drift and cull, then physics: the world before the seabed test |
| Session.Finish | main.js:149-153 | game over: the state becomes GameOver, score, entities, turtle and dive flag are kept, and the board is at most ten entries sorted by score; `Game.GameOver` is proved equal to it |
| Session.Collect | main.js:228-235 | the pearls left are a subsequence of the old ones holding exactly the untouched ones; with the caught ones they make up the old count, and the score grows by exactly the number caught; `Game.CollectPearls` is proved equal to it |
| Session.Resolve | main.js:220-235 | definition: seabed death, then stings, then pickups |
| Session.Step | main.js:192-236 | definition of update(dt): the identity outside a running game, else `Resolve` of `Advanced`; `Game.Update` is proved equal to it and the Step lemmas state its properties |
| Session.Started | main.js:132-138 | definition of startGame: state Playing, then `Reset`; `Game.StartGame` is proved equal to it |
| Session.AtMenu | main.js:140-147 | definition of resetToMenu: state Menu, then `Reset`; `Game.ResetToMenu` is proved equal to it |
| Session.Pressed | main.js:103-106 | definition of handlePressStart: `Started` from menu or game over, then the dive flag is set; `Game.HandlePressStart` is proved equal to it |
| Session.Released | main.js:107 | definition of handlePressEnd: the dive flag is cleared; `Game.HandlePressEnd` is proved equal to it |
| Session.SpawnPhase | main.js:196-197 | the accumulator grows by dt·1000; on reaching 1100 it resets to 0 and exactly one entity is appended, otherwise none; it always ends below 1100 |
| Session.Reset | main.js:161-172 | turtle at (140, 280) with speed 0, no entities, score and accumulator 0; state, dive flag and board are kept |
| Session.StepGated | main.js:193 | a tick outside a running game changes nothing |
| Session.SeabedDeath | main.js:195-220 | on seabed contact the game ends with score and pearls as they stood after culling, with that tick's spawn, drift and cull applied, and the score recorded on the board |
| Session.StingDeath | main.js:223-226 | a sting ends the game with score and pearls unchanged by the collision step and the score recorded on the board |
| Session.PickupTick | main.js:228-235 | without a death the game goes on and the score grows by exactly the number of touched pearls; exactly those are removed and the rest keep their order |
| Session.CullTick | main.js:206-207 | after a running tick the jellyfish left are the moved ones filtered by x + r > -20; the pearls left are the moved ones so filtered, minus the touched ones when the game goes on; so every survivor is on screen, each on-screen jellyfish survives with its multiplicity, and survivors keep their order |
| Session.SpawnTick | main.js:179-188 | a spawning tick appends one jellyfish or pearl at x = 840 in the spawn band, according to the kind draw, and resets the accumulator |
| Session.StepScoreMonotone | main.js:228-235 | a tick never lowers the score |
| Session.BoardWrittenOnlyAtEnd | main.js:149-153 | only a tick that ends a running game changes the leaderboard |
| Session.SpawnKeepsShape | main.js:179-188 | spawning adds only jellyfish of radius 24 and pearls of radius 10 inside the spawn band |
| Session.DriftKeepsGood | main.js:200-207 | after drifting and culling, every entity keeps its spawn shape and is on screen |
| Session.PhysicsKeepsTurtle | main.js:210-219 | physics keep the turtle's radius, its speed within the clamp and its top at or below the surface |
| Session.StepKeepsGood | main.js:192-236 | every tick preserves the world invariant `Good` |
| Session.RunFrozen | main.js:193 | once the game is over (or not started), any number of ticks leave the world unchanged |
| Session.RunScoreMonotone | main.js:228-235 | over any number of ticks the score never decreases |
| Session.RunKeepsGood | main.js:192-236 | every world reached by ticks from a good world is good |
| Session.FrozenEndings | main.js:193 | ticks from a stopped game end no game |
| Session.EndsAtMostOnce | main.js:149-153 | without a restart, a sequence of ticks ends at most one game, so the score is recorded at most once |
| Session.StartCanonical | main.js:132-138 | starting gives a running game with the canonical fresh world, which is good |
| Session.AtMenuIdempotent | main.js:140-147 | returning to the menu is idempotent and yields the canonical menu world |
| Session.PressedGate | main.js:103-106 | a press during a game only sets the dive flag; from the menu or game-over screen it starts a game and sets the flag |
| Session.StingScenario | main.js:223-226 | a jellyfish of radius 24 ten pixels ahead of a freshly started turtle ends the game on the next tick of any step in [0, 0.033], for a sine bounded by [-1, 1] |
| Session.FreshTurtleStep | main.js:210-219 | a freshly started turtle that is not diving rises by at most one pixel (y grows downward) in one step of at most 0.033 s and keeps x and r |
| Session.CloseStings | main.js:224-225 | centres within 10 pixels across and 2 down are inside the sting reach of 42 (the proof bounds each squared offset through the helper `Ocean.SquareBound`) |
| Session.CloseTouches | main.js:230-231 | centres within 10 pixels across and 1 down are inside the pickup reach of 30 (again through `Ocean.SquareBound`) |
| Session.PickupScenario | main.js:228-235 | a pearl of radius 10 ten pixels ahead of a freshly started turtle is collected and scores one on the next tick of any step in [0, 0.033] |
| Session.SeabedScenario | main.js:220 | a turtle one pixel into the seabed that is not rising dies on the next tick of any step in [0, 0.033] |
| Session.SeabedOnFrame | main.js:378-381 | the same for the step `loop` computes from a clock that does not run backwards (`MonotoneClockStep`); a backwards clock gives a negative step, which is not covered |
| Session.ShortFrameRise | main.js:210-213 | in one step of at most 0.033 s a turtle that is not rising rises by less than 0.55 pixels |
| Session.SpliceStep | main.js:228-235 | splicing out the visited pearl exactly when it is touched extends the processed suffix by one |
| Session.Game.constructor | main.js:26-45 | the game starts at the menu with the canonical world and the stored board, as after the load-time resetToMenu |
| Session.Game.ResetWorld | main.js:161-172 | the fields change exactly as `Reset` says |
| Session.Game.StartGame | main.js:132-138 | the fields change exactly as `Started` says and the invariant is kept |
| Session.Game.ResetToMenu | main.js:140-147 | the fields change exactly as `AtMenu` says and the invariant is kept |
| Session.Game.GameOver | main.js:149-153 | the state becomes game over and the score is added to the board under the trimmed name |
| Session.Game.HandlePressStart | main.js:103-106 | the fields change exactly as `Pressed` says and the invariant is kept |
| Session.Game.HandlePressEnd | main.js:107 | only the dive flag is cleared |
| Session.Game.AdvanceJellys | main.js:200-204 | the loop moves every jellyfish as `MoveJelly` says and changes nothing else |
| Session.Game.AdvancePearls | main.js:205 | the loop moves every pearl as `MovePearl` says and changes nothing else |
| Session.Game.SpawnStep | main.js:196-197 | the fields change exactly as `SpawnPhase` says |
| Session.Game.DriftStep | main.js:200-207 | the fields change exactly as drifting and culling say |
| Session.Game.PhysicsStep | main.js:210-219 | the turtle changes exactly as `Integrate` then `SurfaceClamp` say |
| Session.Game.HitsHazard | main.js:223-226 | the answer is true if and only if some jellyfish stings the turtle |
| Session.Game.CollectPearls | main.js:228-235 | the backward splice loop leaves exactly the untouched pearls in order and adds the number of touched ones to the score |
| Session.Game.Update | main.js:192-236 | the fields change exactly as `Step` says and the invariant `Good` is kept |
| Session.Game.Loop | main.js:378-381 | the tick advances by the clock's step, records the timestamp and keeps the invariant |

## Left out

- Drawing (`drawBackground`, `drawEntities`, `drawTurtle`, `drawHUD`, the `clearRect` in `loop`): presentation only.
- The overlay, button and score-label updates inside `startGame`, `resetToMenu`, `gameOver` and `updateScore`: presentation only.
- Storage I/O: `loadLB`/`saveLB` with their JSON encoding and parse fallback, `btnClear`, and `renderLB`. The stored list is the `board` field instead.
- The name key: the `setName` call inside `gameOver` and the name field's change and blur handlers are not part of the state. `LoadName` and `SavedName` model only the value rule.
- DOM event listeners, `fitCanvas` and the `requestAnimationFrame` scheduling: the model exposes the handlers as methods and one frame as `Loop`.
- `passed`, which `resetWorld` clears but nothing reads.
- `Math.random` and `Math.sin`: injected as parameters, as described above.
- Scores.AddScore: does not model the `s|0` 32-bit truncation of the score; scores are unbounded integers.
- Scores.AddScore: the date is an opaque string, not the ISO rendering of `new Date()`.
- Scores.Clip: names are sequences of Dafny characters, so `Clip`, `LoadName` and `SavedName` keep 16 characters, whereas `.slice(0, 16)` counts UTF-16 code units; `Trim` likewise works on characters.
- Session.Game.CollectPearls: the loop works on a local copy of the pearl list and writes it back once, instead of splicing the shared array on every hit; the final state is the same.
- Session.Game.AdvanceJellys: jellyfish are values, so the in-place update of each record through the `for…of` alias is a write into the list at its index.
- Floating point: positions, speeds and time steps are real numbers, so rounding is not modelled.
- Ocean.Dist2: states non-negativity and the zero case, not that the squared distance is zero only for coincident points.
