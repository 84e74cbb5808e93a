/** The game's states and the pure transition of a `Playing` state: enemy
    advance and spawn, terminal conditions, jump physics and sprite evolution. */
module GameStates {
  import opened GameObjects

  const CanvasWidth: real := 800.0
  const GroundY: real := 400.0
  const EvolutionScore: int := 1000
  const ClearScore: int := 2000
  const PlayerX: real := 600.0
  const PlayerWidth: real := 100.0
  const PlayerHeight: real := 100.0
  const EnemyWidth: real := 100.0
  const EnemyHeight: real := 100.0

  /** Horizontal distance an enemy moves per frame. */
  const EnemySpeed: real := 8.0
  /** Jump parameters of `PlayerJumping.calculateNextState`. */
  const Gravity: real := 0.4
  const Vy: int := 13

  /** The player before and after evolution, and a freshly spawned enemy. */
  const Uzimaru1: GameObject := GameObject(PlayerX, GroundY, PlayerWidth, PlayerHeight, V2)
  const Uzimaru2: GameObject := GameObject(PlayerX, GroundY, PlayerWidth, PlayerHeight, V3)
  const Enemy: GameObject := GameObject(0.0, GroundY, EnemyWidth, EnemyHeight, V1)

  datatype Option<T> = None | Some(value: T)

  /** The sealed state hierarchy: `Start`, the two `Playing` variants and the
      two `End` variants. `t` counts the frames since the jump started. */
  datatype GameState =
    | Start
    | PlayerRunning(player: GameObject, enemyList: seq<GameObject>, frame: int, score: int)
    | PlayerJumping(player: GameObject, enemyList: seq<GameObject>, t: int, frame: int, score: int)
    | GameClear(player: GameObject, enemyList: seq<GameObject>, frame: int, score: int)
    | GameOver(player: GameObject, enemyList: seq<GameObject>, frame: int, score: int)
  {
    predicate IsPlaying() { PlayerRunning? || PlayerJumping? }

    predicate IsEnd() { GameClear? || GameOver? }

    /** The fields every state has; `Start` fixes them to the initial values. */
    function Player(): GameObject { if Start? then Uzimaru1 else player }

    function EnemyList(): seq<GameObject> { if Start? then [] else enemyList }

    function Frame(): int { if Start? then 0 else frame }

    function Score(): int { if Start? then 0 else score }
  }

  /** The spawn interval is drawn from `listOf(100, 200)`. */
  predicate ValidInterval(interval: int)
  {
    interval == 100 || interval == 200
  }

  // ---------------------------------------------------------------------
  // Enemy advance and spawn

  /** `it.copy(x = it.x + 8)`: moved right by one step, all else unchanged. */
  function Advance(e: GameObject): (r: GameObject)
    ensures r.x == e.x + EnemySpeed
    ensures r.y == e.y && r.width == e.width && r.height == e.height && r.image == e.image
  {
    e.(x := e.x + EnemySpeed)
  }

  /** The `map` step: every enemy moved right, nothing else about it changed. */
  function MoveAll(es: seq<GameObject>): (r: seq<GameObject>)
    ensures |r| == |es|
    ensures forall i :: 0 <= i < |es| ==>
              r[i].x == es[i].x + EnemySpeed && r[i].y == es[i].y &&
              r[i].width == es[i].width && r[i].height == es[i].height && r[i].image == es[i].image
  {
    if es == [] then [] else [Advance(es[0])] + MoveAll(es[1..])
  }

  /** The `filter` step: keeps exactly the enemies still left of the canvas
      edge, each as often as it occurred. */
  function KeepOnCanvas(es: seq<GameObject>): (r: seq<GameObject>)
    ensures |r| <= |es|
    ensures forall e :: e in r <==> e in es && e.x < CanvasWidth
  {
    if es == [] then []
    else (if es[0].x < CanvasWidth then [es[0]] else []) + KeepOnCanvas(es[1..])
  }

  /** Each enemy still left of the edge is kept as often as it occurred,
      and every other one is dropped. */
  lemma {:induction false} KeepOnCanvasCounts(es: seq<GameObject>, e: GameObject)
    ensures multiset(KeepOnCanvas(es))[e] == if e.x < CanvasWidth then multiset(es)[e] else 0
  {
    if es != [] {
      assert es == [es[0]] + es[1..];
      KeepOnCanvasCounts(es[1..], e);
    }
  }

  /** `calculateNextEnemies`: move, drop those that reached the edge, and when
      `frame % interval == 0` append one fresh enemy at the tail. */
  function CalculateNextEnemies(enemyList: seq<GameObject>, frame: int, interval: int): (r: seq<GameObject>)
    requires ValidInterval(interval)
    ensures var survivors := KeepOnCanvas(MoveAll(enemyList));
            && |r| == |survivors| + (if frame % interval == 0 then 1 else 0)
            && r[..|survivors|] == survivors
            && (frame % interval == 0 ==> r[|survivors|] == Enemy)
    ensures |r| <= |enemyList| + 1
  {
    var survivors := KeepOnCanvas(MoveAll(enemyList));
    if frame % interval == 0 then
      assert (survivors + [Enemy])[..|survivors|] == survivors;
      survivors + [Enemy]
    else
      assert survivors[..|survivors|] == survivors;
      survivors
  }

  /** Moving and filtering respects concatenation, so the survivors keep
      their relative order. */
  lemma {:induction false} SurvivorsAppend(a: seq<GameObject>, b: seq<GameObject>)
    ensures KeepOnCanvas(MoveAll(a + b)) == KeepOnCanvas(MoveAll(a)) + KeepOnCanvas(MoveAll(b))
  {
    if a == [] {
      assert a + b == b;
    } else {
      assert (a + b)[1..] == a[1..] + b;
      SurvivorsAppend(a[1..], b);
    }
  }

  /** A single enemy survives exactly when its moved position is left of the edge. */
  lemma SurvivorsSingleton(e: GameObject)
    ensures KeepOnCanvas(MoveAll([e])) == if e.x + EnemySpeed < CanvasWidth then [Advance(e)] else []
  {
    assert MoveAll([e]) == [Advance(e)] + MoveAll([]);
  }

  /** If all enemies are on the canvas before the advance, all are afterwards. */
  lemma EnemyBoundsPreserved(es: seq<GameObject>, frame: int, interval: int)
    requires ValidInterval(interval)
    requires forall i :: 0 <= i < |es| ==> 0.0 <= es[i].x < CanvasWidth
    ensures var r := CalculateNextEnemies(es, frame, interval);
            forall i :: 0 <= i < |r| ==> 0.0 <= r[i].x < CanvasWidth
  {
  }

  // ---------------------------------------------------------------------
  // Terminal conditions

  /** `enemyList.any { it.checkCollision(player) }` */
  function AnyCollision(enemyList: seq<GameObject>, player: GameObject): (r: bool)
    ensures r <==> exists i :: 0 <= i < |enemyList| && CheckCollision(enemyList[i], player)
  {
    if enemyList == [] then false
    else
      assert forall i :: 0 < i < |enemyList| ==> enemyList[i] == enemyList[1..][i - 1];
      CheckCollision(enemyList[0], player) || AnyCollision(enemyList[1..], player)
  }

  /** `calculateGameEnd`: a collision ends the game as lost, whatever the
      score; otherwise reaching `ClearScore` ends it as cleared, with the
      player put back on the ground. */
  function CalculateGameEnd(s: GameState): (r: Option<GameState>)
    requires s.IsPlaying()
    ensures (exists i :: 0 <= i < |s.enemyList| && CheckCollision(s.enemyList[i], s.player)) ==>
              r == Some(GameOver(s.player, s.enemyList, s.frame, s.score))
    ensures (forall i :: 0 <= i < |s.enemyList| ==> !CheckCollision(s.enemyList[i], s.player)) ==>
              r == if s.score >= ClearScore
                   then Some(GameClear(s.player.(y := GroundY), s.enemyList, s.frame, s.score))
                   else None
  {
    if AnyCollision(s.enemyList, s.player) then
      Some(GameOver(s.player, s.enemyList, s.frame, s.score))
    else if s.score >= ClearScore then
      Some(GameClear(s.player.(y := GroundY), s.enemyList, s.frame, s.score))
    else
      None
  }

  // ---------------------------------------------------------------------
  // The Playing transitions

  /** The player's sprite for the next frame. */
  function EvolvedPlayer(score: int): (r: GameObject)
    ensures r.x == PlayerX && r.y == GroundY && r.width == PlayerWidth && r.height == PlayerHeight
    ensures r.image == if score < EvolutionScore then V2 else V3
  {
    if score < EvolutionScore then Uzimaru1 else Uzimaru2
  }

  /** Height of the jump `t` frames after it started: 0.5·g·t² − vy·t + groundY. */
  function JumpY(t: int): (r: real)
    ensures r == GroundY + 0.2 * (t as real) * ((t - 65) as real)
  {
    0.5 * Gravity * (t as real) * (t as real) - (Vy * t) as real + GroundY
  }

  /** The player is in the air (not below the ground) exactly for t in 0..65. */
  lemma JumpAirborneIff(t: int)
    ensures JumpY(t) <= GroundY <==> 0 <= t <= 65
  {
    var tr := t as real;
    assert JumpY(t) - GroundY == 0.2 * tr * (tr - 65.0);
    if t < 0 {
      assert tr * (tr - 65.0) > 0.0 by { MulNegNeg(tr, tr - 65.0); }
    } else if t > 65 {
      assert tr * (tr - 65.0) > 0.0 by { MulPosPos(tr, tr - 65.0); }
    } else {
      assert tr * (tr - 65.0) <= 0.0 by { MulNonnegNonpos(tr, tr - 65.0); }
    }
  }

  lemma MulNegNeg(a: real, b: real)
    requires a < 0.0 && b < 0.0
    ensures a * b > 0.0
  {
    assert a * b == (-a) * (-b);
  }

  lemma MulPosPos(a: real, b: real)
    requires a > 0.0 && b > 0.0
    ensures a * b > 0.0
  {
  }

  lemma MulNonnegNonpos(a: real, b: real)
    requires a >= 0.0 && b <= 0.0
    ensures a * b <= 0.0
  {
    assert a * (-b) >= 0.0;
  }

  /** `PlayerJumping.calculateNextState`. */
  function JumpingNextState(s: GameState, interval: int): (r: GameState)
    requires s.PlayerJumping? && ValidInterval(interval)
    ensures CalculateGameEnd(s).Some? ==> r == CalculateGameEnd(s).value
    ensures CalculateGameEnd(s).None? ==>
              && (r.PlayerJumping? <==> JumpY(s.t) <= GroundY)
              && (r.PlayerJumping? ==> r.t == s.t + 1 && r.player.y == JumpY(s.t))
              && (r.PlayerRunning? ==> r.player.y == GroundY)
              && r.Player().y <= GroundY
  {
    match CalculateGameEnd(s)
    case Some(end) => end
    case None =>
      var y := JumpY(s.t);
      var playerY := if y <= GroundY then y else GroundY;
      var nextPlayer := EvolvedPlayer(s.score).(y := playerY);
      if y <= GroundY then
        PlayerJumping(nextPlayer, CalculateNextEnemies(s.enemyList, s.frame, interval), s.t + 1, s.frame + 1, s.score + 1)
      else
        PlayerRunning(nextPlayer, CalculateNextEnemies(s.enemyList, s.frame, interval), s.frame + 1, s.score + 1)
  }

  /** `PlayerRunning.calculateNextState`. */
  function RunningNextState(s: GameState, interval: int): (r: GameState)
    requires s.PlayerRunning? && ValidInterval(interval)
    ensures CalculateGameEnd(s).Some? ==> r == CalculateGameEnd(s).value
    ensures CalculateGameEnd(s).None? ==> r.PlayerRunning? && r.player.y == GroundY
  {
    match CalculateGameEnd(s)
    case Some(end) => end
    case None =>
      PlayerRunning(EvolvedPlayer(s.score), CalculateNextEnemies(s.enemyList, s.frame, interval),
                    s.frame + 1, s.score + 1)
  }

  /** `Playing.calculateNextState`: either the terminal state, or the next
      `Playing` state with frame and score one higher, the player at
      `PlayerX` with the sprite its score calls for, and the enemies advanced. */
  function CalculateNextState(s: GameState, interval: int): (r: GameState)
    requires s.IsPlaying() && ValidInterval(interval)
    ensures CalculateGameEnd(s).Some? ==> r == CalculateGameEnd(s).value && r.IsEnd()
    ensures CalculateGameEnd(s).None? ==>
              && r.IsPlaying()
              && r.frame == s.frame + 1 && r.score == s.score + 1
              && r.player.x == PlayerX && r.player.y <= GroundY
              && r.player.width == PlayerWidth && r.player.height == PlayerHeight
              && r.player.image == (if s.score < EvolutionScore then V2 else V3)
              && r.enemyList == CalculateNextEnemies(s.enemyList, s.frame, interval)
  {
    if s.PlayerJumping? then JumpingNextState(s, interval) else RunningNextState(s, interval)
  }

  /** `PlayerRunning.jumpStart`: the same state, now jumping from t = 0. */
  function JumpStart(s: GameState): (r: GameState)
    requires s.PlayerRunning?
    ensures r.PlayerJumping? && r.t == 0
    ensures r.Player() == s.Player() && r.EnemyList() == s.EnemyList()
    ensures r.Frame() == s.Frame() && r.Score() == s.Score()
  {
    PlayerJumping(s.player, s.enemyList, 0, s.frame, s.score)
  }

  /** `newGame`: running, on the ground, with no enemies and zero counters. */
  function NewGame(): (r: GameState)
    ensures r.PlayerRunning? && r.Player() == Uzimaru1 && r.EnemyList() == []
    ensures r.Frame() == 0 && r.Score() == 0
  {
    PlayerRunning(Uzimaru1, [], 0, 0)
  }

  // ---------------------------------------------------------------------
  // Properties of transitions

  /** Collision takes precedence over clearing. */
  lemma CollisionBeatsClear(s: GameState, interval: int, i: int)
    requires s.IsPlaying() && ValidInterval(interval)
    requires 0 <= i < |s.enemyList| && CheckCollision(s.enemyList[i], s.player)
    requires s.score >= ClearScore
    ensures CalculateNextState(s, interval) == GameOver(s.player, s.enemyList, s.frame, s.score)
  {
  }

  /** Jumping at t = 0 (just after `jumpStart`) keeps the player on the ground
      for one more frame, as the parabola starts at groundY. */
  lemma JumpTakesOff(s: GameState, interval: int)
    requires s.PlayerJumping? && s.t == 0 && ValidInterval(interval)
    requires CalculateGameEnd(s).None?
    ensures var r := CalculateNextState(s, interval);
            r.PlayerJumping? && r.t == 1 && r.player.y == GroundY
  {
  }

  /** A jump spans t = 0 … 65 in the air; the tick at t = 66 lands. */
  lemma JumpLandsAt66(s: GameState, interval: int)
    requires s.PlayerJumping? && ValidInterval(interval)
    requires CalculateGameEnd(s).None?
    ensures var r := CalculateNextState(s, interval);
            (r.PlayerJumping? <==> 0 <= s.t <= 65) &&
            (s.t == 66 ==> r.PlayerRunning? && r.player.y == GroundY)
  {
    JumpAirborneIff(s.t);
  }

  // ---------------------------------------------------------------------
  // The invariant of every reachable state

  /** x is a whole multiple of 8. */
  predicate OnGrid(x: real)
  {
    x == x.Floor as real && x.Floor % 8 == 0
  }

  /** An enemy as spawned, moved some whole number of steps, still on the canvas. */
  predicate WellPlacedEnemy(e: GameObject)
  {
    e.y == GroundY && e.width == EnemyWidth && e.height == EnemyHeight && e.image == V1 &&
    0.0 <= e.x < CanvasWidth && OnGrid(e.x)
  }

  predicate WellPlacedEnemies(es: seq<GameObject>)
  {
    forall i :: 0 <= i < |es| ==> WellPlacedEnemy(es[i])
  }

  /** The player at its column, not below ground, with the sprite that the
      score reached calls for. */
  predicate WellPlacedPlayer(p: GameObject, score: int)
  {
    p.x == PlayerX && p.width == PlayerWidth && p.height == PlayerHeight && p.y <= GroundY &&
    p.image == (if score <= EvolutionScore then V2 else V3)
  }

  predicate Common(p: GameObject, es: seq<GameObject>, frame: int, score: int)
  {
    WellPlacedPlayer(p, score) && WellPlacedEnemies(es) && 0 <= score && frame == score
  }

  /** What holds of every state reachable from `Start`. */
  predicate Invariant(s: GameState)
  {
    match s
    case Start => true
    case PlayerRunning(p, es, f, sc) => Common(p, es, f, sc) && sc <= ClearScore && p.y == GroundY
    case PlayerJumping(p, es, t, f, sc) =>
      Common(p, es, f, sc) && sc <= ClearScore && 0 <= t <= 66 &&
      p.y == (if t == 0 then GroundY else JumpY(t - 1))
    case GameOver(p, es, f, sc) => Common(p, es, f, sc) && sc <= ClearScore
    case GameClear(p, es, f, sc) => Common(p, es, f, sc) && sc == ClearScore && p.y == GroundY
  }

  lemma OnGridStep(x: real)
    requires OnGrid(x)
    ensures OnGrid(x + EnemySpeed)
  {
    var n := x.Floor;
    assert x + EnemySpeed == (n + 8) as real;
  }

  /** The enemy advance keeps every enemy well placed. */
  lemma NextEnemiesWellPlaced(es: seq<GameObject>, frame: int, interval: int)
    requires ValidInterval(interval) && WellPlacedEnemies(es)
    ensures WellPlacedEnemies(CalculateNextEnemies(es, frame, interval))
  {
    var moved := MoveAll(es);
    var survivors := KeepOnCanvas(moved);
    forall i | 0 <= i < |moved|
      ensures moved[i].x >= 0.0 && OnGrid(moved[i].x)
    {
      OnGridStep(es[i].x);
    }
    forall i | 0 <= i < |survivors|
      ensures WellPlacedEnemy(survivors[i])
    {
      var e := survivors[i];
      assert multiset(survivors)[e] > 0;
      assert e in moved;
    }
    assert OnGrid(Enemy.x) by { assert (0.0).Floor == 0; }
  }

  lemma EvolvedPlayerWellPlaced(score: int)
    ensures WellPlacedPlayer(EvolvedPlayer(score), score + 1) && EvolvedPlayer(score).y == GroundY
  {
  }

  /** Every `Playing` transition keeps the invariant. */
  lemma NextStatePreservesInvariant(s: GameState, interval: int)
    requires s.IsPlaying() && ValidInterval(interval) && Invariant(s)
    ensures Invariant(CalculateNextState(s, interval))
  {
    var r := CalculateNextState(s, interval);
    if CalculateGameEnd(s).None? {
      NextEnemiesWellPlaced(s.enemyList, s.frame, interval);
      EvolvedPlayerWellPlaced(s.score);
      if s.PlayerJumping? {
        JumpAirborneIff(s.t);
      }
    }
  }

  lemma JumpStartPreservesInvariant(s: GameState)
    requires s.PlayerRunning? && Invariant(s)
    ensures Invariant(JumpStart(s))
  {
  }

  lemma NewGameInvariant()
    ensures Invariant(NewGame())
  {
  }

  /** In reachable states frame and score agree and never pass `ClearScore`,
      so 32-bit wrap-around cannot arise. */
  lemma CountersBounded(s: GameState)
    requires Invariant(s)
    ensures 0 <= s.Score() <= ClearScore && s.Frame() == s.Score()
    ensures s.GameClear? ==> s.Score() == ClearScore
  {
  }

  /** A reachable `Playing` state at the clear score ends on its next step. */
  lemma ClearScoreEndsGame(s: GameState, interval: int)
    requires s.IsPlaying() && ValidInterval(interval) && Invariant(s)
    requires s.score >= ClearScore
    ensures CalculateNextState(s, interval).IsEnd()
  {
  }

  /** A reachable jump makes progress: the next state is not a jump, or one
      frame further along, and never beyond t = 66. */
  lemma JumpProgress(s: GameState, interval: int)
    requires s.PlayerJumping? && ValidInterval(interval) && Invariant(s)
    ensures var r := CalculateNextState(s, interval);
            r.PlayerJumping? ==> r.t == s.t + 1 && r.t <= 66
  {
  }
}
