/**
 * The board's two stage-driven operations. `GetNextMoves` refuses game-flow
 * stages, yields nothing once the game is over, and otherwise asks the current
 * stage's handler. `ApplyMove` reseeds the random generator in game-flow
 * stages, clears its flags, lets the stage's handler apply the move, and
 * reports whether the move drew on randomness.
 *
 * Only the player's choose-board-move handler is part of this model; the
 * other nine handlers, and the mapping from stage to stage type, are given as
 * the `Handlers` parameter.
 */
module BoardDispatch {
  import opened Wrappers
  import opened GameBoard
  import ChooseMove = StagePlayerChooseBoardMove

  /** The ten stage handlers, in the order the dispatcher tries them. */
  datatype StageClass =
    | PlayerChooseBoardMove
    | OpponentChooseBoardMove
    | PlayerAttack
    | OpponentAttack
    | PlayerPutMinion
    | OpponentPutMinion
    | PlayerTurnStart
    | OpponentTurnStart
    | PlayerTurnEnd
    | OpponentTurnEnd

  /** The stage each handler declares it serves. */
  function ClassStage(c: StageClass): Stage
  {
    match c
    case PlayerChooseBoardMove => StagePlayerChooseBoardMove
    case OpponentChooseBoardMove => StageOpponentChooseBoardMove
    case PlayerAttack => StagePlayerAttack
    case OpponentAttack => StageOpponentAttack
    case PlayerPutMinion => StagePlayerPutMinion
    case OpponentPutMinion => StageOpponentPutMinion
    case PlayerTurnStart => StagePlayerTurnStart
    case OpponentTurnStart => StageOpponentTurnStart
    case PlayerTurnEnd => StagePlayerTurnEnd
    case OpponentTurnEnd => StageOpponentTurnEnd
  }

  /**
   * `StageFunctionCaller`: the handler whose stage equals the current one,
   * tried in the listed order; a stage no handler serves is an
   * "Unhandled state" error.
   */
  function StageFunctionCaller(stage: Stage): (r: Result<StageClass, EngineError>)
    ensures r.Success? <==> !stage.StageUnlisted?
    ensures r.Success? ==> ClassStage(r.value) == stage
    ensures r.Failure? ==> r.error == UnhandledState
  {
    if stage == ClassStage(PlayerChooseBoardMove) then Success(PlayerChooseBoardMove)
    else if stage == ClassStage(OpponentChooseBoardMove) then Success(OpponentChooseBoardMove)
    else if stage == ClassStage(PlayerAttack) then Success(PlayerAttack)
    else if stage == ClassStage(OpponentAttack) then Success(OpponentAttack)
    else if stage == ClassStage(PlayerPutMinion) then Success(PlayerPutMinion)
    else if stage == ClassStage(OpponentPutMinion) then Success(OpponentPutMinion)
    else if stage == ClassStage(PlayerTurnStart) then Success(PlayerTurnStart)
    else if stage == ClassStage(OpponentTurnStart) then Success(OpponentTurnStart)
    else if stage == ClassStage(PlayerTurnEnd) then Success(PlayerTurnEnd)
    else if stage == ClassStage(OpponentTurnEnd) then Success(OpponentTurnEnd)
    else Failure(UnhandledState)
  }

  /** Every handler is reached by its own stage, so the ten stages name ten different handlers. */
  lemma DispatchReachesEveryClass(c: StageClass)
    ensures StageFunctionCaller(ClassStage(c)) == Success(c)
  {
  }

  /**
   * What is not part of this model: the stage type of each stage, and the nine
   * other handlers. `nextMoves` gives the moves a handler appends, and `applyMove`
   * the board a handler leaves; each gives instead the code of the error the
   * handler throws.
   */
  datatype Handlers = Handlers(
    stageType: Stage -> StageType,
    nextMoves: (StageClass, BoardState) -> Result<seq<Move>, int>,
    applyMove: (StageClass, BoardState, Move) -> Result<BoardState, int>)

  /**
   * The compile-time switches: CHOOSE_WHERE_TO_PUT_MINION (`placement`) and
   * DEBUG (`debugChecks`).
   */
  datatype Config = Config(placement: bool, debugChecks: bool)

  /** The moves a handler appends, or the error it throws. */
  function StageNextMoves(h: Handlers, cfg: Config, c: StageClass, s: BoardState): Result<seq<Move>, EngineError>
  {
    if c == PlayerChooseBoardMove then Success(ChooseMove.NextMoves(s, cfg.placement))
    else match h.nextMoves(c, s)
      case Success(moves) => Success(moves)
      case Failure(code) => Failure(StageFailed(code))
  }

  /** The board a handler leaves, or the error it throws. */
  function StageApply(h: Handlers, c: StageClass, s: BoardState, move: Move): Result<BoardState, EngineError>
  {
    if c == PlayerChooseBoardMove then ChooseMove.Transition(s, move)
    else match h.applyMove(c, s, move)
      case Success(t) => Success(t)
      case Failure(code) => Failure(StageFailed(code))
  }

  /** `Board::GetNextMoves`: the moves list after the call, or the error thrown. */
  method GetNextMoves(h: Handlers, cfg: Config, board: Board, nextMoves: seq<Move>)
    returns (r: Result<seq<Move>, EngineError>)
    ensures h.stageType(board.stage) == StageTypeGameFlow ==> r == Failure(GameFlowHasNoMoves)
    ensures h.stageType(board.stage) == StageTypeGameEnd ==> r == Success(nextMoves)
    ensures h.stageType(board.stage) in {StageTypePlayer, StageTypeOpponent} ==>
      if board.stage.StageUnlisted? then r == Failure(UnhandledState)
      else
        var moves := StageNextMoves(h, cfg, StageFunctionCaller(board.stage).value, board.Snapshot());
        if moves.Failure? then r == Failure(moves.error) else r == Success(nextMoves + moves.value)
  {
    match h.stageType(board.stage)
    case StageTypeGameFlow =>
      return Failure(GameFlowHasNoMoves);
    case StageTypeGameEnd =>
      return Success(nextMoves);
    case _ =>
      var c := StageFunctionCaller(board.stage);
      if c.Failure? {
        return Failure(c.error);
      }
      if c.value == PlayerChooseBoardMove {
        var moves := ChooseMove.GetNextMoves(board, cfg.placement, nextMoves);
        return Success(moves);
      }
      var moves := h.nextMoves(c.value, board.Snapshot());
      if moves.Failure? {
        return Failure(StageFailed(moves.error));
      }
      return Success(nextMoves + moves.value);
  }

  /** The board handed to the handler: reseeded with the move's seed in a game-flow stage, flags cleared. */
  function HandlerInput(h: Handlers, s: BoardState, move: Move): BoardState
  {
    var seed := if h.stageType(s.stage) == StageTypeGameFlow then move.data.randSeed else s.randomGenerator.seed;
    s.(randomGenerator := RandomGenerator(seed, false))
  }

  /** The board after `ApplyMove` and what the call reports: `is_deterministic`, or the error thrown. */
  datatype Applied = Applied(board: BoardState, result: Result<bool, EngineError>)

  function ApplyMoveSpec(h: Handlers, cfg: Config, s: BoardState, move: Move): Applied
  {
    var input := HandlerInput(h, s, move);
    match StageFunctionCaller(s.stage)
    case Failure(e) => Applied(input, Failure(e))
    case Success(c) =>
      match StageApply(h, c, input, move)
      case Failure(e) => Applied(input, Failure(e))
      case Success(t) =>
        var isDeterministic := !t.randomGenerator.used;
        if cfg.debugChecks && h.stageType(s.stage) != StageTypeGameFlow && !isDeterministic
        then Applied(t, Failure(RandomInPlayerStage))
        else Applied(t, Success(isDeterministic))
  }

  /**
   * `Board::ApplyMove`. A handler that throws is taken to leave the board as
   * it was handed over.
   */
  method ApplyMove(h: Handlers, cfg: Config, board: Board, move: Move) returns (r: Result<bool, EngineError>)
    modifies board
    ensures board.Snapshot() == ApplyMoveSpec(h, cfg, old(board.Snapshot()), move).board
    ensures r == ApplyMoveSpec(h, cfg, old(board.Snapshot()), move).result
  {
    if h.stageType(board.stage) == StageTypeGameFlow {
      board.randomGenerator := board.randomGenerator.(seed := move.data.randSeed);
    }
    board.randomGenerator := board.randomGenerator.(used := false);
    var prevType := h.stageType(board.stage);
    var c := StageFunctionCaller(board.stage);
    if c.Failure? {
      return Failure(c.error);
    }
    if c.value == PlayerChooseBoardMove {
      var applied := ChooseMove.ApplyMove(board, move);
      if applied.Failure? {
        return Failure(applied.error);
      }
    } else {
      var next := h.applyMove(c.value, board.Snapshot(), move);
      if next.Failure? {
        return Failure(StageFailed(next.error));
      }
      board.Restore(next.value);
    }
    var isDeterministic := !board.randomGenerator.used;
    if cfg.debugChecks && prevType != StageTypeGameFlow && !isDeterministic {
      return Failure(RandomInPlayerStage);
    }
    return Success(isDeterministic);
  }

  // ---------------------------------------------------------------------------
  // Properties
  // ---------------------------------------------------------------------------

  /**
   * The generator is reseeded with the move's seed exactly in a game-flow
   * stage, its flags are cleared, and nothing else is touched before the
   * handler runs.
   */
  lemma ReseedOnlyInGameFlow(h: Handlers, s: BoardState, move: Move)
    ensures HandlerInput(h, s, move).randomGenerator.seed ==
      (if h.stageType(s.stage) == StageTypeGameFlow then move.data.randSeed else s.randomGenerator.seed)
    ensures !HandlerInput(h, s, move).randomGenerator.used
    ensures HandlerInput(h, s, move).(randomGenerator := s.randomGenerator) == s
  {
  }

  /**
   * On success the report is the generator's flag state after the handler:
   * deterministic iff the handler made no draw. Without the debug check a
   * draw never makes the move fail.
   */
  lemma {:induction false} DeterminismReported(h: Handlers, cfg: Config, s: BoardState, move: Move)
    ensures var a := ApplyMoveSpec(h, cfg, s, move);
      a.result.Success? ==> a.result.value == !a.board.randomGenerator.used
    ensures !cfg.debugChecks ==> ApplyMoveSpec(h, cfg, s, move).result != Failure(RandomInPlayerStage)
  {
  }

  /** With the debug check on, a move outside game flow that draws on randomness is refused. */
  lemma {:induction false} DebugCheckRejectsRandomness(h: Handlers, cfg: Config, s: BoardState, move: Move)
    requires cfg.debugChecks && h.stageType(s.stage) != StageTypeGameFlow
    requires StageFunctionCaller(s.stage).Success?
    requires var c := StageFunctionCaller(s.stage).value;
      var t := StageApply(h, c, HandlerInput(h, s, move), move);
      t.Success? && t.value.randomGenerator.used
    ensures ApplyMoveSpec(h, cfg, s, move).result == Failure(RandomInPlayerStage)
  {
  }

  /**
   * The player's choose-board-move stage is deterministic: an END_TURN or
   * play-minion move applied there succeeds, reports no randomness (so the
   * debug check passes), and leaves the board the stage's transition gives.
   */
  lemma ChooseBoardMoveIsDeterministic(h: Handlers, cfg: Config, s: BoardState, move: Move)
    requires s.stage == StagePlayerChooseBoardMove
    requires move.action == ActionEndTurn || move.action == ActionPlayHandCardMinion
    ensures ApplyMoveSpec(h, cfg, s, move).result == Success(true)
    ensures ApplyMoveSpec(h, cfg, s, move).board == ChooseMove.Transition(HandlerInput(h, s, move), move).value
  {
  }

  /** In the choose-board-move stage, any other action is refused, with the generator's flags already cleared. */
  lemma ChooseBoardMoveRefusesOtherActions(h: Handlers, cfg: Config, s: BoardState, move: Move)
    requires s.stage == StagePlayerChooseBoardMove
    requires move.action != ActionEndTurn && move.action != ActionPlayHandCardMinion
    ensures ApplyMoveSpec(h, cfg, s, move) == Applied(HandlerInput(h, s, move), Failure(InvalidAction))
  {
  }

  /** ApplyMove refuses a stage that no handler serves, whatever its stage type. */
  lemma UnlistedStageRefused(h: Handlers, cfg: Config, s: BoardState, move: Move)
    requires s.stage.StageUnlisted?
    ensures ApplyMoveSpec(h, cfg, s, move).result == Failure(UnhandledState)
  {
  }
}
