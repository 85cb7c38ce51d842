/**
 * The game board: the twelve components the engine keeps for one position,
 * the stage the game is in, the moves that drive it from stage to stage, and
 * the board's own small operations (equality and the jump to the start of the
 * player's turn).
 */
module GameBoard {
  import CardDatabase

  /** The ten stages that have a handler, plus any other value of the stage enum. */
  datatype Stage =
    | StagePlayerTurnStart
    | StagePlayerChooseBoardMove
    | StagePlayerPutMinion
    | StagePlayerAttack
    | StagePlayerTurnEnd
    | StageOpponentTurnStart
    | StageOpponentChooseBoardMove
    | StageOpponentPutMinion
    | StageOpponentAttack
    | StageOpponentTurnEnd
    | StageUnlisted(code: int)

  /** Who acts in a stage: the player, the opponent, chance (game flow), or nobody (game over). */
  datatype StageType = StageTypePlayer | StageTypeOpponent | StageTypeGameFlow | StageTypeGameEnd

  datatype Action = ActionEndTurn | ActionPlayHandCardMinion | ActionGameFlow | ActionOther(code: int)

  /**
   * What a move carries: the hand index and board location of a minion to play,
   * and the seed of a game-flow move. The source keeps these in a union; here
   * they sit side by side and each action reads its own.
   */
  datatype MoveData = MoveData(idxHandCard: int, location: int, randSeed: int)

  /** The data of a freshly declared move, before any member is written. */
  const BlankMoveData := MoveData(0, 0, 0)

  datatype Move = Move(action: Action, data: MoveData)

  /** The choice a PLAY_HAND_CARD_MINION move hands on to the put-minion stage. */
  datatype PutMinionData = PutMinionData(idxHandCard: int, location: int)

  /** The stage-to-stage data kept on the board. */
  datatype BoardData = BoardData(playerPutMinionData: PutMinionData)

  /** The random generator as far as the board sees it: its seed and whether a draw was made. */
  datatype RandomGenerator = RandomGenerator(seed: int, used: bool)

  datatype Crystal = Crystal(current: int)
  datatype PlayerStat = PlayerStat(crystal: Crystal)

  /** A minion on the board, known here by the card it was played from. */
  datatype Minion = Minion(cardId: int)

  /** The number of minions a row holds when it is full. */
  const MaxMinions: nat := 7

  predicate RowFull(minions: seq<Minion>)
  {
    |minions| >= MaxMinions
  }

  /** The twelve components of a board, in the order `operator==` compares them. */
  datatype BoardState = BoardState(
    playerStat: PlayerStat,
    playerSecrets: seq<int>,
    playerHand: seq<CardDatabase.Card>,
    playerDeck: seq<CardDatabase.Card>,
    playerMinions: seq<Minion>,
    opponentStat: PlayerStat,
    opponentSecrets: seq<int>,
    opponentCards: seq<int>,
    opponentMinions: seq<Minion>,
    stage: Stage,
    randomGenerator: RandomGenerator,
    data: BoardData)

  /** The ways a board operation throws; `StageFailed` carries the code of an error thrown by a handler. */
  datatype EngineError =
    | GameFlowHasNoMoves
    | UnhandledState
    | InvalidAction
    | RandomInPlayerStage
    | StageFailed(code: int)

  class Board {
    var playerStat: PlayerStat
    var playerSecrets: seq<int>
    var playerHand: seq<CardDatabase.Card>
    var playerDeck: seq<CardDatabase.Card>
    var playerMinions: seq<Minion>
    var opponentStat: PlayerStat
    var opponentSecrets: seq<int>
    var opponentCards: seq<int>
    var opponentMinions: seq<Minion>
    var stage: Stage
    var randomGenerator: RandomGenerator
    var data: BoardData

    /** The board's twelve components as one value. */
    function Snapshot(): BoardState
      reads this
    {
      BoardState(playerStat, playerSecrets, playerHand, playerDeck, playerMinions,
                 opponentStat, opponentSecrets, opponentCards, opponentMinions,
                 stage, randomGenerator, data)
    }

    /** Overwrites every component with those of `s`. */
    method Restore(s: BoardState)
      modifies this
      ensures Snapshot() == s
    {
      playerStat := s.playerStat;
      playerSecrets := s.playerSecrets;
      playerHand := s.playerHand;
      playerDeck := s.playerDeck;
      playerMinions := s.playerMinions;
      opponentStat := s.opponentStat;
      opponentSecrets := s.opponentSecrets;
      opponentCards := s.opponentCards;
      opponentMinions := s.opponentMinions;
      stage := s.stage;
      randomGenerator := s.randomGenerator;
      data := s.data;
    }

    /** `operator==`: the twelve components compared one by one. */
    predicate Equals(rhs: Board)
      reads this, rhs
      ensures Equals(rhs) <==> Snapshot() == rhs.Snapshot()
    {
      && playerStat == rhs.playerStat
      && playerSecrets == rhs.playerSecrets
      && playerHand == rhs.playerHand
      && playerDeck == rhs.playerDeck
      && playerMinions == rhs.playerMinions
      && opponentStat == rhs.opponentStat
      && opponentSecrets == rhs.opponentSecrets
      && opponentCards == rhs.opponentCards
      && opponentMinions == rhs.opponentMinions
      && stage == rhs.stage
      && randomGenerator == rhs.randomGenerator
      && data == rhs.data
    }

    /** Moves the game to the start of the player's turn; nothing else changes. */
    method SetStateToPlayerTurnStart()
      modifies this
      ensures Snapshot() == old(Snapshot()).(stage := StagePlayerTurnStart)
    {
      stage := StagePlayerTurnStart;
    }
  }

  /** Board equality is reflexive and symmetric, and it sees the stage, the generator and the stage data. */
  lemma EqualsIsReflexiveAndSymmetric(a: Board, b: Board)
    ensures a.Equals(a)
    ensures a.Equals(b) <==> b.Equals(a)
    ensures a.Equals(b) ==> a.stage == b.stage && a.randomGenerator == b.randomGenerator && a.data == b.data
  {
  }
}
