/** The game component's per-tick dispatch: what a jump key press does in each
    state, and the advance of `Playing` states on ticks without one. */
module Component {
  import opened GameObjects
  import opened GameStates

  /** The state after one tick, given the current state, whether the jump
      key was pressed since the last tick, and the spawn interval drawn. */
  function UpdateStatus(s: GameState, keydown: bool, interval: int): GameState
    requires ValidInterval(interval)
  {
    if keydown then
      match s
      case Start => NewGame()
      case PlayerRunning(_, _, _, _) => JumpStart(s)
      case PlayerJumping(_, _, _, _, _) => s
      case GameClear(_, _, _, _) => Start
      case GameOver(_, _, _, _) => Start
    else if s.IsPlaying() then
      CalculateNextState(s, interval)
    else
      s
  }

  /** A key press starts a game from `Start`, starts a jump while running,
      is ignored while jumping, and sends a finished game back to `Start`
      (not straight into a new game). */
  lemma KeyPress(s: GameState, interval: int)
    requires ValidInterval(interval)
    ensures s.Start? ==> UpdateStatus(s, true, interval) == NewGame()
    ensures s.PlayerRunning? ==> UpdateStatus(s, true, interval) == JumpStart(s)
    ensures s.PlayerJumping? ==> UpdateStatus(s, true, interval) == s
    ensures s.IsEnd() ==> UpdateStatus(s, true, interval) == Start
  {
  }

  /** A tick that consumes a key press does no physics: in a `Playing` state
      the player, the enemies, frame and score stay as they were. */
  lemma KeyPressSkipsPhysics(s: GameState, interval: int)
    requires ValidInterval(interval) && s.IsPlaying()
    ensures var r := UpdateStatus(s, true, interval);
            r.IsPlaying() && r.Player() == s.Player() && r.EnemyList() == s.EnemyList() &&
            r.Frame() == s.Frame() && r.Score() == s.Score()
  {
  }

  /** Without a key press only `Playing` states move; `Start` and the `End`
      states stay exactly as they are. */
  lemma IdleTick(s: GameState, interval: int)
    requires ValidInterval(interval)
    ensures s.IsPlaying() ==> UpdateStatus(s, false, interval) == CalculateNextState(s, interval)
    ensures !s.IsPlaying() ==> UpdateStatus(s, false, interval) == s
  {
  }

  /** Each tick keeps the invariant of reachable states. */
  lemma StepPreservesInvariant(s: GameState, keydown: bool, interval: int)
    requires ValidInterval(interval) && Invariant(s)
    ensures Invariant(UpdateStatus(s, keydown, interval))
  {
    if keydown {
      if s.Start? {
        NewGameInvariant();
      } else if s.PlayerRunning? {
        JumpStartPreservesInvariant(s);
      }
    } else if s.IsPlaying() {
      NextStatePreservesInvariant(s, interval);
    }
  }

  /** Counters on every tick: a `Playing` state either ends with frame and
      score unchanged or moves on with both one higher; an `End` state
      changes only into `Start`. */
  lemma StepCounters(s: GameState, keydown: bool, interval: int)
    requires ValidInterval(interval) && Invariant(s)
    ensures var r := UpdateStatus(s, keydown, interval);
            && (s.IsPlaying() && !keydown ==>
                  (r.IsEnd() && r.Frame() == s.Frame() && r.Score() == s.Score()) ||
                  (r.IsPlaying() && r.Frame() == s.Frame() + 1 && r.Score() == s.Score() + 1))
            && (s.IsEnd() ==> r == s || r.Start?)
  {
  }

  /** What the host loop samples at one tick. */
  datatype Input = Input(keydown: bool, interval: int)

  predicate ValidInputs(inputs: seq<Input>)
  {
    forall i :: 0 <= i < |inputs| ==> ValidInterval(inputs[i].interval)
  }

  /** The state after a run of ticks. */
  function Run(s: GameState, inputs: seq<Input>): GameState
    requires ValidInputs(inputs)
    decreases |inputs|
  {
    if inputs == [] then s
    else Run(UpdateStatus(s, inputs[0].keydown, inputs[0].interval), inputs[1..])
  }

  lemma {:induction false} RunPreservesInvariant(s: GameState, inputs: seq<Input>)
    requires ValidInputs(inputs) && Invariant(s)
    ensures Invariant(Run(s, inputs))
    decreases |inputs|
  {
    if inputs != [] {
      StepPreservesInvariant(s, inputs[0].keydown, inputs[0].interval);
      RunPreservesInvariant(UpdateStatus(s, inputs[0].keydown, inputs[0].interval), inputs[1..]);
    }
  }

  /** Over any run from `Start`, every enemy is on the ground, at a whole
      multiple of 8 with 0 <= x < 800, and the player never goes below the
      ground. */
  lemma ReachableStatesWellPlaced(inputs: seq<Input>)
    requires ValidInputs(inputs)
    ensures var s := Run(Start, inputs);
            && (forall i :: 0 <= i < |s.EnemyList()| ==>
                  s.EnemyList()[i].y == GroundY && OnGrid(s.EnemyList()[i].x) &&
                  0.0 <= s.EnemyList()[i].x < CanvasWidth)
            && s.Player().y <= GroundY
            && 0 <= s.Score() <= ClearScore
  {
    RunPreservesInvariant(Start, inputs);
  }

  /** Once the game has ended, ticks without a key press leave it frozen. */
  lemma {:induction false} EndFrozen(s: GameState, inputs: seq<Input>)
    requires ValidInputs(inputs) && s.IsEnd()
    requires forall i :: 0 <= i < |inputs| ==> !inputs[i].keydown
    ensures Run(s, inputs) == s
    decreases |inputs|
  {
    if inputs != [] {
      EndFrozen(s, inputs[1..]);
    }
  }

  /** The game component: the jump key flag set by the key handlers and the
      current state, advanced once per animation frame. */
  class Game {
    var keydown: bool
    var state: GameState

    ghost predicate Valid()
      reads this
    {
      Invariant(state)
    }

    constructor ()
      ensures Valid() && state == Start && !keydown
    {
      state := Start;
      keydown := false;
    }

    /** The keydown listener: only the space key sets the flag. */
    method KeyDown(key: string)
      requires Valid()
      modifies this
      ensures Valid() && state == old(state)
      ensures keydown == (key == " " || old(keydown))
    {
      if key == " " {
        keydown := true;
      }
    }

    /** The keyup listener: releasing the space key clears the flag. */
    method KeyUp(key: string)
      requires Valid()
      modifies this
      ensures Valid() && state == old(state)
      ensures keydown == (key != " " && old(keydown))
    {
      if key == " " {
        keydown := false;
      }
    }

    /** `updateStatus`: a pending key press is consumed and acted on alone;
        otherwise a `Playing` state advances by one frame. */
    method Tick(interval: int)
      requires ValidInterval(interval) && Valid()
      modifies this
      ensures Valid() && !keydown
      ensures state == UpdateStatus(old(state), old(keydown), interval)
    {
      StepPreservesInvariant(state, keydown, interval);
      var currentState := state;
      if keydown {
        keydown := false;
        match currentState {
          case Start =>
            state := NewGame();
          case PlayerRunning(_, _, _, _) =>
            state := JumpStart(currentState);
          case GameClear(_, _, _, _) =>
            state := Start;
          case GameOver(_, _, _, _) =>
            state := Start;
          case PlayerJumping(_, _, _, _, _) =>
        }
        return;
      }
      if currentState.IsPlaying() {
        var nextState := CalculateNextState(currentState, interval);
        if currentState != nextState {
          state := nextState;
        }
      }
    }
  }

  /** A session as the host drives it: press space in `Start`, then two
      frames of play, the first of which spawns an enemy at frame 0. */
  method HostSession()
  {
    var game := new Game();
    game.KeyDown(" ");
    game.Tick(100);
    assert game.state == PlayerRunning(Uzimaru1, [], 0, 0);
    game.KeyUp(" ");
    game.Tick(200);
    assert MoveAll([]) == [];
    assert game.state == PlayerRunning(Uzimaru1, [Enemy], 1, 1);
    game.Tick(100);
    assert game.state.frame == 2 && game.state.enemyList == [Advance(Enemy)];
  }
}
