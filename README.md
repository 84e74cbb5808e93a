# The happy-birthday-uzimaru game state machine, in Dafny

This project models the discrete core of a small side-scrolling avoidance
game. The player runs on the ground at a fixed column and jumps over enemies
that scroll in from the left. The game is lost on a collision and cleared at
score 2000. The model covers:

- `GameObject.dfy` (module `GameObjects`): the `GameObject` rectangle and the
  collision predicate `CheckCollision`. The predicate keeps the source's
  vertical threshold, which uses the other object's width rather than its
  height.
- `GameState.dfy` (module `GameStates`): the sealed state hierarchy as the
  datatype `GameState`, with the variants `Start`, `PlayerRunning`,
  `PlayerJumping`, `GameClear` and `GameOver`. It also holds the constants,
  the prototype objects `Uzimaru1`, `Uzimaru2` and `Enemy`, and the pure
  transitions:
  - the enemy advance, written as a `map` step (`MoveAll`), a `filter` step
    (`KeepOnCanvas`) and the spawn (`CalculateNextEnemies`);
  - the terminal check `CalculateGameEnd`;
  - the per-variant transitions `JumpingNextState` and `RunningNextState`,
    and their dispatch `CalculateNextState`;
  - `JumpStart` and `NewGame`;
  - the predicate `Invariant`, which holds in every reachable state, and the
    lemmas showing that each transition preserves it.
- `Game.dfy` (module `Component`): the component's per-tick dispatch. The
  pure function `UpdateStatus` specifies it. The class `Game` holds the
  `keydown` flag and the current `state`. Its methods are the key listeners
  `KeyDown` and `KeyUp` and the per-frame `Tick`. `Tick` is written
  statement by statement, as `updateStatus` is, and is proved equal to
  `UpdateStatus`. `Run` folds `UpdateStatus` over a sequence of ticks. On
  such runs, `RunPreservesInvariant` and `ReachableStatesWellPlaced` show
  that the invariant holds from `Start` onwards, and `EndFrozen` shows that
  finished games stay frozen.

Modelling choices:

- Coordinates are exact `real` numbers.
- Frame, score and the jump counter `t` are mathematical integers.
  `CountersBounded` and `JumpProgress` show that reachable states keep
  `0 <= frame == score <= 2000` and `0 <= t <= 66`. So the 32-bit `Int` of
  the source never wraps in a reachable run.
- `frame % interval == 0` has the same truth value under Kotlin's truncating
  `%` and Dafny's Euclidean `%`, for any sign of `frame`.
- The random draw `listOf(100, 200).random()` becomes an `interval`
  parameter constrained by `ValidInterval`. The draw happens once per call of
  `calculateNextEnemies`, which is why every transition takes one interval.
- Images are the opaque tags `V1`…`V4`.
- The `if (currentState != nextState)` guard around `setState` is kept in
  `Tick`. It never changes the resulting state.

A key press in a finished game (`GameClear` or `GameOver`) returns to
`Start`, not to a new game (`KeyPress`; Game.kt lines 59-62). Reaching a new
game takes a second key press.

In every reachable run `GameClear` is entered at exactly score 2000, never
above it (`CountersBounded`).

## Model

| member | source | states |
|---|---|---|
| GameObjects.CheckCollision | src/main/kotlin/model/GameObject.kt:13-19 | definition; specified by CollisionIsOverlap and the lemmas below |
| GameObjects.CollisionIsOverlap | src/main/kotlin/model/GameObject.kt:13-19 | a collides with b iff their x-ranges overlap and a's y-range overlaps a square of side b.width centred on b's centre |
| GameObjects.SquareCollisionIsOverlap | src/main/kotlin/model/GameObject.kt:13-19 | when b is as wide as it is high, collision is exactly the overlap of the two rectangles |
| GameObjects.CollisionIgnoresImage | src/main/kotlin/model/GameObject.kt:13-19 | the test does not depend on either object's image |
| GameObjects.CollisionSymmetricForSquares | src/main/kotlin/model/GameObject.kt:18-19 | for two square objects the test is symmetric |
| GameObjects.CollisionNotSymmetric | src/main/kotlin/model/GameObject.kt:18-19 | a concrete pair shows that the test is not symmetric in general, because of the other.width threshold |
| GameObjects.CollisionReflexive | src/main/kotlin/model/GameObject.kt:14-19 | an object with positive width and height collides with itself |
| GameObjects.HorizontallyApartNoCollision | src/main/kotlin/model/GameObject.kt:18 | objects whose x-ranges do not overlap never collide |
| GameObjects.CollisionTranslationInvariant | src/main/kotlin/model/GameObject.kt:14-19 | moving both objects by the same (dx, dy) leaves the outcome unchanged |
| GameStates.Advance | src/main/kotlin/model/GameState.kt:34 | the copy with x + 8; y, size and image unchanged |
| GameStates.MoveAll | src/main/kotlin/model/GameState.kt:32-35 | same length; each enemy's x grows by 8, and its y, size and image are unchanged |
| GameStates.KeepOnCanvas | src/main/kotlin/model/GameState.kt:35-37 | an enemy is in the result iff it is in the input with x < 800; the result is no longer than the input |
| GameStates.KeepOnCanvasCounts | src/main/kotlin/model/GameState.kt:35-37 | each enemy with x < 800 is kept as many times as it occurs; every other enemy occurs 0 times |
| GameStates.CalculateNextEnemies | src/main/kotlin/model/GameState.kt:22-38 | the result is the moved, filtered survivors, then exactly one `Enemy` at the tail iff frame % interval == 0; the length is at most the old length + 1 |
| GameStates.SurvivorsAppend | src/main/kotlin/model/GameState.kt:32-37 | moving and filtering distributes over concatenation, so the survivors keep their order |
| GameStates.SurvivorsSingleton | src/main/kotlin/model/GameState.kt:33-37 | one enemy survives, moved by 8, exactly when x + 8 < 800 |
| GameStates.EnemyBoundsPreserved | src/main/kotlin/model/GameState.kt:22-38 | if every enemy has 0 <= x < 800 before the advance, every enemy does afterwards |
| GameStates.AnyCollision | src/main/kotlin/model/GameState.kt:42 | true iff some enemy of the list collides with the player |
| GameStates.CalculateGameEnd | src/main/kotlin/model/GameState.kt:41-49 | any collision gives GameOver with player, enemies, frame and score unchanged; otherwise score >= 2000 gives GameClear with the player on the ground; otherwise None |
| GameStates.EvolvedPlayer | src/main/kotlin/model/GameState.kt:106-110 | the player at x = 600 on the ground, with sprite V2 (uzimaru1) if score < 1000, else V3 (uzimaru2); the same choice is made at lines 73-77 |
| GameStates.JumpY | src/main/kotlin/model/GameState.kt:65-67 | 0.5·0.4·t² − 13·t + 400 equals groundY + 0.2·t·(t − 65) |
| GameStates.JumpAirborneIff | src/main/kotlin/model/GameState.kt:65-68 | the parabola 0.2·t² − 13·t + 400 is at most groundY exactly for 0 <= t <= 65 |
| GameStates.JumpingNextState | src/main/kotlin/model/GameState.kt:61-83 | a terminal result is returned as is; otherwise it stays PlayerJumping(t + 1) with y = y(t) iff y(t) <= groundY, else lands as PlayerRunning with y = groundY; the player never ends below the ground |
| GameStates.RunningNextState | src/main/kotlin/model/GameState.kt:102-112 | a terminal result is returned as is; otherwise the next state is PlayerRunning with the player on the ground |
| GameStates.CalculateNextState | src/main/kotlin/model/GameState.kt:61-111 | a terminal result is an End state; otherwise a Playing state with frame + 1 and score + 1, the player at x = 600 and not below ground, sprite V2 if score < 1000 else V3, and the advanced enemy list |
| GameStates.JumpStart | src/main/kotlin/model/GameState.kt:92-100 | PlayerJumping with t = 0 and the same player, enemies, frame and score |
| GameStates.NewGame | src/main/kotlin/model/GameState.kt:188-195 | PlayerRunning with uzimaru1, no enemies, frame 0 and score 0 |
| GameStates.CollisionBeatsClear | src/main/kotlin/model/GameState.kt:41-47 | a collision yields GameOver even with score >= 2000 |
| GameStates.JumpTakesOff | src/main/kotlin/model/GameState.kt:65-79 | from t = 0 with no terminal condition, the next state is PlayerJumping(1) with y = groundY |
| GameStates.JumpLandsAt66 | src/main/kotlin/model/GameState.kt:65-82 | with no terminal condition, the jump goes on iff 0 <= t <= 65; at t = 66 it lands with y = groundY |
| GameStates.NextEnemiesWellPlaced | src/main/kotlin/model/GameState.kt:22-38 | enemies on the ground, of enemy size and sprite, at a multiple of 8 with 0 <= x < 800, stay so after the advance |
| GameStates.OnGridStep | src/main/kotlin/model/GameState.kt:34 | a whole multiple of 8 plus 8 is again one |
| GameStates.EvolvedPlayerWellPlaced | src/main/kotlin/model/GameState.kt:106-110 | the evolved player sits at x = 600 on the ground with the sprite for the next score |
| GameStates.NextStatePreservesInvariant | src/main/kotlin/model/GameState.kt:61-112 | every Playing transition keeps the invariant of reachable states |
| GameStates.JumpStartPreservesInvariant | src/main/kotlin/model/GameState.kt:92-100 | starting a jump keeps the invariant |
| GameStates.NewGameInvariant | src/main/kotlin/model/GameState.kt:188-195 | a new game satisfies the invariant |
| GameStates.CountersBounded | src/main/kotlin/model/GameState.kt:45-46 | in reachable states 0 <= score <= 2000 and frame == score; GameClear has score exactly 2000 |
| GameStates.ClearScoreEndsGame | src/main/kotlin/model/GameState.kt:45-46 | a reachable Playing state with score >= 2000 ends on its next step |
| GameStates.JumpProgress | src/main/kotlin/model/GameState.kt:65-82 | from a reachable jump the next state is not a jump, or a jump with t + 1 <= 66 |
| Component.UpdateStatus | src/main/kotlin/component/Game.kt:41-76 | definition; specified by KeyPress, KeyPressSkipsPhysics and IdleTick |
| Component.Run | src/main/kotlin/component/Game.kt:41-44 | definition (one updateStatus call per animation frame); specified by RunPreservesInvariant, ReachableStatesWellPlaced and EndFrozen |
| Component.KeyPress | src/main/kotlin/component/Game.kt:48-63 | a key press gives newGame from Start, jumpStart while running, Start from an End state, and no change while jumping |
| Component.KeyPressSkipsPhysics | src/main/kotlin/component/Game.kt:46-65 | a consumed key press in a Playing state leaves player, enemies, frame and score untouched |
| Component.IdleTick | src/main/kotlin/component/Game.kt:67-76 | without a key press Playing states take calculateNextState, and every other state is unchanged |
| Component.StepPreservesInvariant | src/main/kotlin/component/Game.kt:46-76 | each tick keeps the invariant of reachable states |
| Component.StepCounters | src/main/kotlin/component/Game.kt:46-76 | a Playing tick without a key press either ends with frame and score unchanged or advances both by 1; an End state only becomes Start |
| Component.RunPreservesInvariant | src/main/kotlin/component/Game.kt:41-76 | the invariant holds after any sequence of ticks |
| Component.ReachableStatesWellPlaced | src/main/kotlin/component/Game.kt:18-23 | after any run from Start, every enemy has y = groundY, x a multiple of 8 and 0 <= x < 800, the player is not below the ground, and 0 <= score <= 2000 |
| Component.EndFrozen | src/main/kotlin/component/Game.kt:67-76 | an End state stays unchanged over any run of ticks without a key press |
| Component.Game.constructor | src/main/kotlin/component/Game.kt:18-23 | the game starts in Start with the flag cleared |
| Component.Game.KeyDown | src/main/kotlin/component/Game.kt:26-31 | only the space key sets `keydown`; the state is unchanged |
| Component.Game.KeyUp | src/main/kotlin/component/Game.kt:32-37 | releasing space clears `keydown`; other keys leave it; the state is unchanged |
| Component.HostSession | src/main/kotlin/model/GameState.kt:23-30 | a client: the first tick from Start after a space press gives newGame, and the next tick at frame 0 spawns one enemy |
| Component.Game.Tick | src/main/kotlin/component/Game.kt:41-77 | the new state is UpdateStatus of the old state, flag and interval; the flag is cleared; the invariant is kept |

## Left out

- Drawing: `drawGameObject`, `drawGameState`, `render` and the canvas component. They contain no game logic.
- The `chicken` object and `canvasHeight`. They are used only for drawing.
- The host loop: `window.requestAnimationFrame` self-scheduling and React's `setState` re-render. One call of `Tick` models one animation frame. `setState` is modelled as an immediate assignment.
- Event-listener registration (`addEventListener`). Only its effect on `keydown` is modelled, in `KeyDown` and `KeyUp`.
- Image loading. Sprites are opaque tags.
- The random generator. The spawn interval is an input restricted to 100 or 200.
- IEEE-754 double rounding. Coordinates and the parabola use exact reals, so float artefacts at the landing boundary are not reproduced.
- Kotlin's 32-bit `Int` wrap-around is not modelled. The invariant bounds every reachable counter far below it.
- The build configuration.
