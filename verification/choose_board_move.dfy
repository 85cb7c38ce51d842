/**
 * The stage in which the player chooses what to do with the board: end the
 * turn, or play an affordable minion card from the hand. Enumerating the moves
 * lists END_TURN first, then the play-minion moves hand card by hand card;
 * applying a move records the choice on the board and advances the stage.
 *
 * `placement` stands for the compile-time switch CHOOSE_WHERE_TO_PUT_MINION:
 * when it is on, a playable minion card yields one move per board slot
 * 0..size, and when it is off, a single move whose location is left as it was
 * in a freshly declared move.
 */
module StagePlayerChooseBoardMove {
  import opened Wrappers
  import opened GameBoard
  import CardDatabase

  const EndTurnMove: Move := Move(ActionEndTurn, BlankMoveData)

  function PlayMinionMove(idx: int, location: int): Move
  {
    Move(ActionPlayHandCardMinion, BlankMoveData.(idxHandCard := idx, location := location))
  }

  /** The play moves for hand card `idx` at locations 0 .. k-1, in that order. */
  function Slots(idx: int, k: nat): seq<Move>
  {
    if k == 0 then [] else Slots(idx, k - 1) + [PlayMinionMove(idx, k - 1)]
  }

  /** The moves `GetNextMoves_PlayMinion` appends for hand card `idx` on a row of `size` minions. */
  function PlayMinionMoves(idx: int, size: nat, placement: bool): seq<Move>
  {
    if placement then Slots(idx, size + 1) else [PlayMinionMove(idx, BlankMoveData.location)]
  }

  /** The locations a play move may carry: a board slot 0..size, or the blank one. */
  predicate LocationOk(size: nat, placement: bool, location: int)
  {
    if placement then 0 <= location <= size else location == BlankMoveData.location
  }

  /** How many moves one playable card yields. */
  function Width(size: nat, placement: bool): nat
  {
    if placement then size + 1 else 1
  }

  /** Hand card `idx` can be played: it is a minion, the row has room and the crystals cover its cost. */
  predicate Playable(s: BoardState, idx: int)
  {
    && 0 <= idx < |s.playerHand|
    && s.playerHand[idx].cardType == CardDatabase.TypeMinion
    && !RowFull(s.playerMinions)
    && s.playerStat.crystal.current >= s.playerHand[idx].cost
  }

  /** The moves hand card `idx` contributes. */
  function CardMoves(s: BoardState, idx: int, placement: bool): seq<Move>
  {
    if Playable(s, idx) then PlayMinionMoves(idx, |s.playerMinions|, placement) else []
  }

  /** The moves the first n hand cards contribute, in hand order. */
  function HandMoves(s: BoardState, n: nat, placement: bool): seq<Move>
  {
    if n == 0 then [] else HandMoves(s, n - 1, placement) + CardMoves(s, n - 1, placement)
  }

  /** The moves of this stage: END_TURN, then each hand card's play moves. */
  function NextMoves(s: BoardState, placement: bool): seq<Move>
  {
    [EndTurnMove] + HandMoves(s, |s.playerHand|, placement)
  }

  /** `GetCountByCardType(TYPE_MINION)` over the first n cards of a hand. */
  function MinionCount(hand: seq<CardDatabase.Card>, n: nat): nat
    requires n <= |hand|
  {
    if n == 0 then 0
    else MinionCount(hand, n - 1) + (if hand[n - 1].cardType == CardDatabase.TypeMinion then 1 else 0)
  }

  /** The number of playable cards among the first n. */
  function PlayableCount(s: BoardState, n: nat): nat
  {
    if n == 0 then 0 else PlayableCount(s, n - 1) + (if Playable(s, n - 1) then 1 else 0)
  }

  /** The capacity reserved before enumerating: 1, plus (minion cards) x (slots, or 1) when the row has room. */
  function GuessedNextMoves(s: BoardState, placement: bool): nat
  {
    1 + (if RowFull(s.playerMinions) then 0
         else MinionCount(s.playerHand, |s.playerHand|) * Width(|s.playerMinions|, placement))
  }

  /** Whether move a comes strictly before move b in (hand index, location) order. */
  predicate Precedes(a: Move, b: Move)
  {
    a.data.idxHandCard < b.data.idxHandCard
    || (a.data.idxHandCard == b.data.idxHandCard && a.data.location < b.data.location)
  }

  predicate StrictlyOrdered(ms: seq<Move>)
  {
    forall i, j :: 0 <= i < j < |ms| ==> Precedes(ms[i], ms[j])
  }

  // ---------------------------------------------------------------------------
  // Enumeration
  // ---------------------------------------------------------------------------

  /** Appends END_TURN, then the play moves of every playable minion card in hand order. */
  method GetNextMoves(board: Board, placement: bool, nextMoves: seq<Move>) returns (r: seq<Move>)
    ensures r == nextMoves + NextMoves(board.Snapshot(), placement)
  {
    var canPlayMinion := !RowFull(board.playerMinions);
    r := nextMoves + [EndTurnMove];
    var handIdx := 0;
    while handIdx < |board.playerHand|
      invariant 0 <= handIdx <= |board.playerHand|
      invariant r == nextMoves + [EndTurnMove] + HandMoves(board.Snapshot(), handIdx, placement)
    {
      var playingCard := board.playerHand[handIdx];
      if playingCard.cardType == CardDatabase.TypeMinion
         && canPlayMinion
         && board.playerStat.crystal.current >= playingCard.cost
      {
        r := GetNextMovesPlayMinion(handIdx, board, placement, r);
      }
      handIdx := handIdx + 1;
    }
  }

  /** Appends the play moves of hand card `handCardIdx`: one per slot 0..size, or a single one. */
  method GetNextMovesPlayMinion(handCardIdx: int, board: Board, placement: bool, nextMoves: seq<Move>)
    returns (r: seq<Move>)
    ensures r == nextMoves + PlayMinionMoves(handCardIdx, |board.playerMinions|, placement)
  {
    if placement {
      r := nextMoves;
      var i := 0;
      while i <= |board.playerMinions|
        invariant 0 <= i <= |board.playerMinions| + 1
        invariant r == nextMoves + Slots(handCardIdx, i)
      {
        r := r + [PlayMinionMove(handCardIdx, i)];
        i := i + 1;
      }
    } else {
      r := nextMoves + [PlayMinionMove(handCardIdx, BlankMoveData.location)];
    }
  }

  // ---------------------------------------------------------------------------
  // Applying a move
  // ---------------------------------------------------------------------------

  /**
   * The transition this stage makes: a play move records its hand index and
   * location for the put-minion stage and moves there; END_TURN moves to the
   * end of the turn; any other action is refused.
   */
  function Transition(s: BoardState, move: Move): Result<BoardState, EngineError>
  {
    match move.action
    case ActionPlayHandCardMinion =>
      Success(s.(data := s.data.(playerPutMinionData := PutMinionData(move.data.idxHandCard, move.data.location)),
                 stage := StagePlayerPutMinion))
    case ActionEndTurn => Success(s.(stage := StagePlayerTurnEnd))
    case _ => Failure(InvalidAction)
  }

  method ApplyMove(board: Board, move: Move) returns (r: Result<(), EngineError>)
    modifies board
    ensures Transition(old(board.Snapshot()), move).Success? ==>
      r.Success? && board.Snapshot() == Transition(old(board.Snapshot()), move).value
    ensures Transition(old(board.Snapshot()), move).Failure? ==>
      r == Failure(InvalidAction) && board.Snapshot() == old(board.Snapshot())
  {
    match move.action
    case ActionPlayHandCardMinion =>
      PlayHandCardMinion(board, move);
      return Success(());
    case ActionEndTurn =>
      EndTurn(board, move);
      return Success(());
    case _ =>
      return Failure(InvalidAction);
  }

  method PlayHandCardMinion(board: Board, move: Move)
    modifies board
    ensures board.Snapshot() == old(board.Snapshot()).(
      data := old(board.data).(playerPutMinionData := PutMinionData(move.data.idxHandCard, move.data.location)),
      stage := StagePlayerPutMinion)
  {
    board.data := board.data.(playerPutMinionData := board.data.playerPutMinionData.(idxHandCard := move.data.idxHandCard));
    board.data := board.data.(playerPutMinionData := board.data.playerPutMinionData.(location := move.data.location));
    board.stage := StagePlayerPutMinion;
  }

  method EndTurn(board: Board, move: Move)
    modifies board
    ensures board.Snapshot() == old(board.Snapshot()).(stage := StagePlayerTurnEnd)
  {
    board.stage := StagePlayerTurnEnd;
  }

  /** A play move changes only the stage and the put-minion data: hand, minions and crystals stay. */
  lemma PlayMoveKeepsHandAndRow(s: BoardState, move: Move)
    requires move.action == ActionPlayHandCardMinion
    ensures Transition(s, move).Success?
    ensures var t := Transition(s, move).value;
      && t.playerHand == s.playerHand && t.playerMinions == s.playerMinions && t.playerStat == s.playerStat
      && t.stage == StagePlayerPutMinion
      && t.data.playerPutMinionData == PutMinionData(move.data.idxHandCard, move.data.location)
  {
  }

  /** Exactly the END_TURN and PLAY_HAND_CARD_MINION actions are accepted. */
  lemma TransitionAcceptsTwoActions(s: BoardState, move: Move)
    ensures Transition(s, move).Success? <==>
      move.action == ActionEndTurn || move.action == ActionPlayHandCardMinion
  {
  }

  // ---------------------------------------------------------------------------
  // What the enumeration yields
  // ---------------------------------------------------------------------------

  lemma {:induction false} SlotsAt(idx: int, k: nat)
    ensures |Slots(idx, k)| == k
    ensures forall i :: 0 <= i < k ==> Slots(idx, k)[i] == PlayMinionMove(idx, i)
  {
    if k > 0 {
      SlotsAt(idx, k - 1);
    }
  }

  /** One card's moves: all for that card, at acceptable locations, every acceptable location once, in order. */
  lemma PlayMinionMovesFacts(idx: int, size: nat, placement: bool)
    ensures |PlayMinionMoves(idx, size, placement)| == Width(size, placement)
    ensures StrictlyOrdered(PlayMinionMoves(idx, size, placement))
    ensures forall m :: m in PlayMinionMoves(idx, size, placement) <==>
      m == PlayMinionMove(idx, m.data.location) && LocationOk(size, placement, m.data.location)
  {
    if placement {
      SlotsAt(idx, size + 1);
      var ms := Slots(idx, size + 1);
      forall m: Move | m == PlayMinionMove(idx, m.data.location) && LocationOk(size, placement, m.data.location)
        ensures m in ms
      {
        assert ms[m.data.location] == m;
      }
    }
  }

  /** Every move the hand yields is a play move for a playable card before n, at an acceptable location. */
  lemma {:induction false} HandMovesSound(s: BoardState, n: nat, placement: bool)
    ensures forall m :: m in HandMoves(s, n, placement) ==>
      && m == PlayMinionMove(m.data.idxHandCard, m.data.location)
      && 0 <= m.data.idxHandCard < n
      && Playable(s, m.data.idxHandCard)
      && LocationOk(|s.playerMinions|, placement, m.data.location)
  {
    if n > 0 {
      HandMovesSound(s, n - 1, placement);
      PlayMinionMovesFacts(n - 1, |s.playerMinions|, placement);
    }
  }

  /** Every playable card before n yields its play move at every acceptable location. */
  lemma {:induction false} HandMovesComplete(s: BoardState, n: nat, placement: bool, idx: int, location: int)
    requires 0 <= idx < n && Playable(s, idx) && LocationOk(|s.playerMinions|, placement, location)
    ensures PlayMinionMove(idx, location) in HandMoves(s, n, placement)
  {
    PlayMinionMovesFacts(n - 1, |s.playerMinions|, placement);
    if idx < n - 1 {
      HandMovesComplete(s, n - 1, placement, idx, location);
    }
  }

  /** The hand's moves come in strictly increasing (hand index, location) order. */
  lemma {:induction false} HandMovesOrdered(s: BoardState, n: nat, placement: bool)
    ensures StrictlyOrdered(HandMoves(s, n, placement))
  {
    if n > 0 {
      var a := HandMoves(s, n - 1, placement);
      var b := CardMoves(s, n - 1, placement);
      HandMovesOrdered(s, n - 1, placement);
      HandMovesSound(s, n - 1, placement);
      PlayMinionMovesFacts(n - 1, |s.playerMinions|, placement);
      forall i, j | 0 <= i < j < |a + b| ensures Precedes((a + b)[i], (a + b)[j]) {
        if j < |a| {
          assert (a + b)[i] == a[i] && (a + b)[j] == a[j];
        } else if i < |a| {
          assert a[i] in a && b[j - |a|] in b;
        } else {
          assert (a + b)[i] == b[i - |a|] && (a + b)[j] == b[j - |a|];
        }
      }
    }
  }

  lemma MulStep(k: nat, w: nat)
    ensures (k + 1) * w == k * w + w
  {
  }

  lemma MulMonotone(k: nat, m: nat, w: nat)
    requires k <= m
    ensures k * w <= m * w
  {
    assert m * w == k * w + (m - k) * w;
  }

  /** The hand yields Width moves per playable card. */
  lemma {:induction false} HandMovesCount(s: BoardState, n: nat, placement: bool)
    ensures |HandMoves(s, n, placement)| == PlayableCount(s, n) * Width(|s.playerMinions|, placement)
  {
    if n > 0 {
      HandMovesCount(s, n - 1, placement);
      var w := Width(|s.playerMinions|, placement);
      var k := PlayableCount(s, n - 1);
      if Playable(s, n - 1) {
        SlotsAt(n - 1, |s.playerMinions| + 1);
        assert |CardMoves(s, n - 1, placement)| == w;
        MulStep(k, w);
      }
    }
  }

  /** Playable cards are minion cards, and none is playable when the row is full. */
  lemma {:induction false} PlayableCountBelow(s: BoardState, n: nat)
    requires n <= |s.playerHand|
    ensures PlayableCount(s, n) <= MinionCount(s.playerHand, n)
    ensures RowFull(s.playerMinions) ==> PlayableCount(s, n) == 0
  {
    if n > 0 {
      PlayableCountBelow(s, n - 1);
    }
  }

  /**
   * The moves listed: END_TURN first and only there; after it, exactly the
   * play move of each playable card at each acceptable location, in strictly
   * increasing (hand index, location) order.
   */
  lemma NextMovesCharacterised(s: BoardState, placement: bool)
    ensures var ms := NextMoves(s, placement);
      && ms[0] == EndTurnMove
      && (forall i :: 1 <= i < |ms| ==> ms[i].action == ActionPlayHandCardMinion)
      && (forall i, j :: 1 <= i < j < |ms| ==> Precedes(ms[i], ms[j]))
      && (forall idx, location :: PlayMinionMove(idx, location) in ms <==>
            Playable(s, idx) && LocationOk(|s.playerMinions|, placement, location))
  {
    var ms := NextMoves(s, placement);
    var hand := HandMoves(s, |s.playerHand|, placement);
    HandMovesSound(s, |s.playerHand|, placement);
    HandMovesOrdered(s, |s.playerHand|, placement);
    forall i | 1 <= i < |ms| ensures ms[i].action == ActionPlayHandCardMinion {
      assert ms[i] == hand[i - 1] && hand[i - 1] in hand;
    }
    forall i, j | 1 <= i < j < |ms| ensures Precedes(ms[i], ms[j]) {
      assert ms[i] == hand[i - 1] && ms[j] == hand[j - 1];
    }
    forall idx, location | Playable(s, idx) && LocationOk(|s.playerMinions|, placement, location)
      ensures PlayMinionMove(idx, location) in ms
    {
      HandMovesComplete(s, |s.playerHand|, placement, idx, location);
    }
  }

  /** There are 1 + (playable cards) x Width moves, never more than the reserved guess. */
  lemma NextMovesCount(s: BoardState, placement: bool)
    ensures |NextMoves(s, placement)| ==
      1 + PlayableCount(s, |s.playerHand|) * Width(|s.playerMinions|, placement)
    ensures |NextMoves(s, placement)| <= GuessedNextMoves(s, placement)
  {
    HandMovesCount(s, |s.playerHand|, placement);
    PlayableCountBelow(s, |s.playerHand|);
    MulMonotone(PlayableCount(s, |s.playerHand|), MinionCount(s.playerHand, |s.playerHand|),
                Width(|s.playerMinions|, placement));
  }

  /** With a full row, END_TURN is the only move. */
  lemma FullRowOnlyEndTurn(s: BoardState, placement: bool)
    requires RowFull(s.playerMinions)
    ensures NextMoves(s, placement) == [EndTurnMove]
  {
    NextMovesCount(s, placement);
  }
}
