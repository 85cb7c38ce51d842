# hearthstone-ai: a verified model of the engine core

This project models five sequential pieces of a Hearthstone game engine and its
Monte-Carlo tree search. It proves what each piece promises.

- **Card catalogue** (`card_database.dfy`, module `CardDatabase`).
  - Card records become `Card` values. Rarity and race names map to enums.
  - A mechanics list sets the taunt, charge, divine-shield and stealth flags.
  - Accepted cards take dense ids 1, 2, 3, … .
  - Two tables are kept: internal id → card, and original string id → internal id.
  - The catalogue is a class over two maps and a counter. Ingestion is also given as a function on a
    `Catalogue` value, and the class methods are proved against it.
- **Minion stats** (`minion_stat.dfy`, module `MinionStats`). A class holding attack, hp,
  max hp and a seven-bit flag set (`bv7`). It has setters, a flag reset, an OR-merge, equality
  and a hash.
- **Search-tree child table** (`child_node_map.dfy`, module `ChildNodeMaps`). An int-keyed map
  to edge objects. Each edge owns at most one child node. `Get` returns null on a miss, and
  `Create` requires the key to be absent. The edges are objects, so the model can state that a
  handed-out edge keeps its identity as the table grows.
- **Board** (`board.dfy`, module `GameBoard`).
  - The twelve board components and the stage enum.
  - Moves, and the board's equality and jump to the player's turn start.
- **Choose-board-move stage** (`choose_board_move.dfy`, module `StagePlayerChooseBoardMove`).
  - It enumerates the player's moves: END_TURN first, then the play-minion moves of each
    affordable minion card. There is one move per board slot when the compile-time placement
    switch is on.
  - Applying a move writes the choice into the board data and advances the stage.
- **Stage dispatcher** (`board_dispatch.dfy`, module `BoardDispatch`).
  - `StageFunctionCaller` routes over the ten stage handlers.
  - `Board::GetNextMoves` behaves by stage type.
  - `Board::ApplyMove` reseeds in game-flow stages, clears the randomness flags, dispatches,
    reports determinism and runs the optional debug check.

`wrappers.dfy` holds the `Option` and `Result` types that stand for thrown exceptions.

## Model

| member | source | states |
|---|---|---|
| CardDatabase.GetRarity | game-engine/lib/card-database.cpp:7-20 | a missing rarity gives RarityUnknown; exactly FREE/COMMON/RARE/EPIC/LEGENDARY succeed, each to the rarity whose name it is; anything else is the parse error |
| CardDatabase.RarityRoundTrip | game-engine/lib/card-database.cpp:13-17 | every named rarity is read back from its own name |
| CardDatabase.GetMinionRace | game-engine/lib/card-database.cpp:22-36 | a missing race gives RaceNormal; exactly the seven listed names succeed (MECHANICAL to RaceMech); anything else, "NORMAL" included, is the unknown-race error |
| CardDatabase.RaceRoundTrip | game-engine/lib/card-database.cpp:27-33 | every listed race is read back from its own name |
| CardDatabase.ProcessMinionCardMechanics | game-engine/lib/card-database.cpp:38-92 | the loop computes ApplyMechanics: absent or non-array mechanics leave the minion untouched; otherwise each of the four flags ends true iff its name is listed, the deferred and hard-coded names change nothing, and one unlisted name is an error |
| CardDatabase.MechanicsIgnoreOrder | game-engine/lib/card-database.cpp:51-90 | the outcome depends only on which names are listed, not on their order or repetition |
| CardDatabase.AddRecord | game-engine/lib/card-database.cpp:125-175 | a record that is neither MINION nor SPELL changes nothing; a kept record fails iff its rarity, or for a minion its race or mechanics, is invalid; on success it is stored under the current next id with its type and cost, its original id maps to that id, and the next id grows by one |
| CardDatabase.AddRecordsStopsAtError | game-engine/lib/card-database.cpp:117-120 | once a record throws, the rest of the list is not looked at and the catalogue keeps what was added before it |
| CardDatabase.AddRecordsCountsIds | game-engine/lib/card-database.cpp:189-194 | ingesting a list without error advances the next id by exactly the number of kept records |
| CardDatabase.AddRecordsAssignsSequentialIds | game-engine/lib/card-database.cpp:117-120 | ingesting a list without error stores each kept record, as the card it builds, under start + (number of kept records before it): the ids follow the list order |
| CardDatabase.ReadFromJsonNumbersFromOne | game-engine/lib/card-database.cpp:111-123 | ingesting into a cleared catalogue numbers the kept records 1, 2, … in order and leaves the next id one past the last |
| CardDatabase.StaleOriginIdSurvivesReread | game-engine/lib/card-database.cpp:183-187 | since Clear keeps the origin table, an original id from an earlier read still resolves, to its old id, after any later read of records that do not carry that id |
| CardDatabase.StaleOriginIdNamesNewCard | game-engine/lib/card-database.cpp:183-194 | when that later read succeeds and hands out the old id again, the stale original id resolves to the card built from a kept record of the later read, a record that does not carry that original id |
| CardDatabase.KeptCountHit | game-engine/lib/card-database.cpp:117-120 | every count below a list's number of kept records is the number of kept records before some kept record |
| CardDatabase.HandedOutIdHoldsRecord | game-engine/lib/card-database.cpp:111-123 | ingesting from next id 1 without error stores, under every id 1 .. (kept records), the card built from some kept record of the list |
| CardDatabase.AddRecordsKeepsOrigin | game-engine/lib/card-database.cpp:117-120 | adding a list whose kept records never carry an original id leaves that id's entry in the origin table as it was |
| CardDatabase.AddRecordsFillsIds | game-engine/lib/card-database.cpp:189-194 | adding a list without error keeps every stored id and stores a card under every id it hands out |
| CardDatabase.CardDatabase.constructor | game-engine/lib/card-database.cpp:94-97 | a new catalogue has no cards, no origin ids and next id 1 |
| CardDatabase.CardDatabase.ReadFromJson | game-engine/lib/card-database.cpp:111-123 | the catalogue is cleared first; a non-array input then gives false; an array is added record by record in order, giving true, or the first error with the records before it kept |
| CardDatabase.CardDatabase.AddCard | game-engine/lib/card-database.cpp:125-141 | dispatches on the record type; the new state is AddRecord of the old one, and on an error the state is unchanged |
| CardDatabase.CardDatabase.AddMinionCard | game-engine/lib/card-database.cpp:143-161 | on success the minion card built from the record is stored under the old next id, which advances by one; on an invalid rarity, race or mechanic nothing changes, so no id is taken |
| CardDatabase.CardDatabase.AddSpellCard | game-engine/lib/card-database.cpp:163-175 | on success the spell card is stored under the old next id, which advances; an invalid rarity changes nothing |
| CardDatabase.CardDatabase.AddCardEntry | game-engine/lib/card-database.cpp:177-181 | afterwards GetCard(card.id) is the card and GetCardIdFromOriginalId(origin) is card.id; every other id and origin reads as before |
| CardDatabase.CardDatabase.Clear | game-engine/lib/card-database.cpp:183-187 | the card table is emptied and the next id is 1; the origin table is unchanged |
| CardDatabase.CardDatabase.GetAvailableCardId | game-engine/lib/card-database.cpp:189-194 | returns the old next id and advances it by one; both tables are unchanged |
| CardDatabase.CardDatabase.GetCard | game-engine/lib/card-database.cpp:196-207 | a stored id gives its card; an absent id gives a card marked invalid |
| CardDatabase.CardDatabase.GetCardIdFromOriginalId | game-engine/lib/card-database.cpp:214-219 | a known original id gives its internal id; an unknown one gives -1 |
| MinionStats.Position | include/game-engine/board-objects/minion-stat.h:14-23 | every flag has a bit below FLAG_MAX = 7 |
| MinionStats.WithFlag | include/game-engine/board-objects/minion-stat.h:44 | setting a flag to v makes it read v and leaves every other flag as it was |
| MinionStats.Union | include/game-engine/board-objects/minion-stat.h:52 | a flag is set in the OR of two flag sets iff it is set in either |
| MinionStats.NoFlagsIsEmpty | include/game-engine/board-objects/minion-stat.h:51 | the reset flag set has no flag |
| MinionStats.FlagsExtensional | include/game-engine/board-objects/minion-stat.h:25 | two seven-bit flag sets are equal iff they agree on all seven flags |
| MinionStats.MergeTwice | include/game-engine/board-objects/minion-stat.h:52 | merging the same flags twice gives the same as merging once |
| MinionStats.MergeCommutes | include/game-engine/board-objects/minion-stat.h:52 | the merged flag set does not depend on the order of the two operands |
| MinionStats.MinionStat.constructor | include/game-engine/board-objects/minion-stat.h:28 | a new stat has attack = hp = max hp = 0 and no flag set |
| MinionStats.MinionStat.SetAttack | include/game-engine/board-objects/minion-stat.h:41 | only attack changes, to the given value |
| MinionStats.MinionStat.SetHP | include/game-engine/board-objects/minion-stat.h:42 | only hp changes, to the given value |
| MinionStats.MinionStat.SetMaxHP | include/game-engine/board-objects/minion-stat.h:43 | only max hp changes, to the given value |
| MinionStats.MinionStat.SetFlag | include/game-engine/board-objects/minion-stat.h:44 | GetFlag(f) becomes v; every other flag and the three numbers are unchanged |
| MinionStats.MinionStat.GetAttack | include/game-engine/board-objects/minion-stat.h:46 | the stat's attack |
| MinionStats.MinionStat.GetHP | include/game-engine/board-objects/minion-stat.h:47 | the stat's hp |
| MinionStats.MinionStat.GetMaxHP | include/game-engine/board-objects/minion-stat.h:48 | the stat's max hp |
| MinionStats.MinionStat.GetFlag | include/game-engine/board-objects/minion-stat.h:49 | bit f of the flag set, at the position the enum gives f |
| MinionStats.MinionStat.ClearFlags | include/game-engine/board-objects/minion-stat.h:51 | every flag reads false; attack, hp and max hp are unchanged |
| MinionStats.MinionStat.MergeFlags | include/game-engine/board-objects/minion-stat.h:52 | each flag becomes the OR of its old value and rhs's; the numbers are unchanged |
| MinionStats.MinionStat.Equals | include/game-engine/board-objects/minion-stat.h:30-37 | true iff attack, hp and max hp are equal and every flag has the same value |
| MinionStats.MinionStat.NotEquals | include/game-engine/board-objects/minion-stat.h:39 | true iff some number or some flag differs |
| MinionStats.MinionStat.Hash | include/game-engine/board-objects/minion-stat.h:66-78 | folds attack, hp, max hp and the flags, in that order, into 0 with the combining step |
| MinionStats.EqualStatsHashEqual | include/game-engine/board-objects/minion-stat.h:66-78 | equal stats hash equal, whatever the combining step, because the hash reads only the compared fields |
| MinionStats.EqualsIsReflexiveAndSymmetric | include/game-engine/board-objects/minion-stat.h:30-37 | stat equality is reflexive and symmetric |
| ChildNodeMaps.ChildType.constructor | include/MCTS/selection/ChildNodeMap.h:23-25 | a new edge owns no node and has an add-on of its own |
| ChildNodeMaps.ChildType.GetEdgeAddon | include/MCTS/selection/ChildNodeMap.h:16 | the edge's own add-on, the same object for the edge's whole life |
| ChildNodeMaps.ChildType.SetNode | include/MCTS/selection/ChildNodeMap.h:18-21 | afterwards GetNode returns the node given |
| ChildNodeMaps.ChildType.GetNode | include/MCTS/selection/ChildNodeMap.h:21 | the owned node, or null |
| ChildNodeMaps.ChildNodeMap.constructor | include/MCTS/selection/ChildNodeMap.h:47-48 | a new table is empty |
| ChildNodeMaps.ChildNodeMap.Get | include/MCTS/selection/ChildNodeMap.h:36-40 | null iff the choice has no entry; otherwise the entry's edge object |
| ChildNodeMaps.ChildNodeMap.Create | include/MCTS/selection/ChildNodeMap.h:42-45 | requires the choice to be absent; adds exactly that key, bound to a new edge with no node; every other key keeps its edge object, and each existing edge keeps its node |
| ChildNodeMaps.CreateAll | include/MCTS/selection/ChildNodeMap.h:36-45 | after creating edges for several new choices in turn, Get of each choice still returns the edge created for it, and other keys are untouched |
| ChildNodeMaps.SetChildNode | include/MCTS/selection/ChildNodeMap.h:18-40 | setting the node of the edge Get returns for one choice leaves the node of every other choice's edge unchanged, since each choice has an edge object of its own |
| GameBoard.Board.Equals | game-engine/lib/board.cpp:154-172 | true iff all twelve components are equal, stage, random generator and stage data included |
| GameBoard.EqualsIsReflexiveAndSymmetric | game-engine/lib/board.cpp:154-172 | board equality is reflexive and symmetric, and equal boards have the same stage, generator and data |
| GameBoard.Board.SetStateToPlayerTurnStart | game-engine/lib/board.cpp:90-93 | the stage becomes the player-turn-start stage and nothing else changes |
| StagePlayerChooseBoardMove.GetNextMoves | simulation/include/stages/player-choose-board-move.h:16-53 | appends exactly NextMoves to the caller's list |
| StagePlayerChooseBoardMove.GetNextMovesPlayMinion | simulation/include/stages/player-choose-board-move.h:70-85 | appends one play move per slot 0..size in placement mode, else a single one |
| StagePlayerChooseBoardMove.SlotsAt | simulation/include/stages/player-choose-board-move.h:78-81 | the placement loop yields size+1 moves, the i-th at location i |
| StagePlayerChooseBoardMove.PlayMinionMovesFacts | simulation/include/stages/player-choose-board-move.h:70-85 | one card yields size+1 moves (placement) or 1, strictly ordered, and a move is among them iff it plays that card at an acceptable location |
| StagePlayerChooseBoardMove.HandMovesSound | simulation/include/stages/player-choose-board-move.h:38-48 | every move from the hand plays a playable card (a minion, the row not full, the crystals covering its cost) at an acceptable location |
| StagePlayerChooseBoardMove.HandMovesComplete | simulation/include/stages/player-choose-board-move.h:38-48 | every playable card yields its play move at every acceptable location |
| StagePlayerChooseBoardMove.HandMovesOrdered | simulation/include/stages/player-choose-board-move.h:38-48 | the play moves come in strictly increasing (hand index, location) order |
| StagePlayerChooseBoardMove.HandMovesCount | simulation/include/stages/player-choose-board-move.h:38-48 | the hand yields (playable cards) × (size+1, or 1) moves |
| StagePlayerChooseBoardMove.PlayableCountBelow | simulation/include/stages/player-choose-board-move.h:18-31 | no more cards are playable than there are minion cards, and none when the row is full |
| StagePlayerChooseBoardMove.NextMovesCharacterised | simulation/include/stages/player-choose-board-move.h:33-48 | END_TURN comes first and only there; after it, exactly the play moves of playable cards at acceptable locations, in strictly increasing order |
| StagePlayerChooseBoardMove.NextMovesCount | simulation/include/stages/player-choose-board-move.h:21-31 | the number of moves is 1 + (playable cards) × (size+1, or 1), never more than the reserved guess |
| StagePlayerChooseBoardMove.FullRowOnlyEndTurn | simulation/include/stages/player-choose-board-move.h:18-45 | with a full minion row END_TURN is the only move |
| StagePlayerChooseBoardMove.ApplyMove | simulation/include/stages/player-choose-board-move.h:55-67 | a PLAY_HAND_CARD_MINION or END_TURN move gives the Transition board; any other action is the invalid-action error with the board unchanged |
| StagePlayerChooseBoardMove.PlayHandCardMinion | simulation/include/stages/player-choose-board-move.h:87-97 | the move's hand index and location go into the put-minion data and the stage becomes PUT_MINION; nothing else changes |
| StagePlayerChooseBoardMove.EndTurn | simulation/include/stages/player-choose-board-move.h:99-102 | only the stage changes, to TURN_END |
| StagePlayerChooseBoardMove.PlayMoveKeepsHandAndRow | simulation/include/stages/player-choose-board-move.h:87-97 | a play move succeeds and keeps the hand, the minions and the crystals |
| StagePlayerChooseBoardMove.TransitionAcceptsTwoActions | simulation/include/stages/player-choose-board-move.h:55-67 | a move is accepted iff its action is END_TURN or PLAY_HAND_CARD_MINION |
| BoardDispatch.StageFunctionCaller | game-engine/lib/board.cpp:22-48 | succeeds iff the stage is one of the ten listed, with the handler that serves it; any other stage is the "Unhandled state" error |
| BoardDispatch.DispatchReachesEveryClass | game-engine/lib/board.cpp:34-43 | each of the ten handlers is reached from its own stage |
| BoardDispatch.GetNextMoves | game-engine/lib/board.cpp:50-65 | a game-flow stage is an error; a game-end stage leaves the list unchanged; a player or opponent stage appends its handler's moves, passes on the error the handler throws, or is the unhandled-state error for an unlisted stage |
| BoardDispatch.ApplyMove | game-engine/lib/board.cpp:67-88 | the board and the report are those of ApplyMoveSpec: reseed in game flow, clear the flags, dispatch, read back the flag, then the debug check |
| BoardDispatch.ReseedOnlyInGameFlow | game-engine/lib/board.cpp:69-73 | the handler sees the move's seed exactly when the stage is game flow, otherwise the old seed, with the flags cleared and every other component as it was |
| BoardDispatch.DeterminismReported | game-engine/lib/board.cpp:79-81 | a successful move reports deterministic iff the generator was not used after the flags were cleared; without the debug check, randomness never makes the move fail |
| BoardDispatch.DebugCheckRejectsRandomness | game-engine/lib/board.cpp:75-87 | with the debug check on, a move outside game flow whose handler draws on randomness fails |
| BoardDispatch.ChooseBoardMoveIsDeterministic | game-engine/lib/board.cpp:67-88 | in the player's choose-board-move stage, END_TURN and play-minion moves succeed, report deterministic, and leave the stage's transition board |
| BoardDispatch.ChooseBoardMoveRefusesOtherActions | game-engine/lib/board.cpp:67-79 | in that stage any other action fails as invalid, after the reseed and flag clearing |
| BoardDispatch.UnlistedStageRefused | game-engine/lib/board.cpp:47 | ApplyMove in an unlisted stage is the unhandled-state error |

## Left out

- The JSON library, and `CardDatabase::ReadFromJsonFile` (card-database.cpp:99-109), are not modelled because they do file I/O.
  - A card record is a datatype whose members are optional.
  - Where the library would read a missing member, the model reads "" for a string and 0 for an integer.
  - A mechanics member that is present but not an array is its own case.
- `CardDatabase::GetOriginalIdMap` only returns the origin table. The model reads the `originIdMap` field directly.
- Two behaviours of `ReadFromJson` are kept as the code has them.
  - The catalogue is cleared before the array check, so a non-array input also leaves it cleared.
  - An exception from one record propagates after the records before it were added, so the catalogue keeps a partial state. The model returns that error in a `Result`.
- CardDatabase.ClearedMinion: `new_card.data.minion.Clear()` (card-database.cpp:150) is taken to zero the stats, set the race to normal and the taunt, charge, shield and stealth flags to false. The card header is not part of this model. This assumption alone decides the flags of a minion whose mechanics member is missing or not an array, since the code returns early then (card-database.cpp:40, :44).
- CardDatabase.CardDatabase.GetCard: of the invalid card only its type (TypeInvalid) is stated. The card header, and so what `MarkInvalid` does to the other members, is not part of this model.
- `Board::DebugPrint` and `GetStageName` (board.cpp:95-152) are console output and string names.
- The random generator's internals are not shown. It is a seed plus a "used" flag.
  - Its `operator==` is not shown either. Generator equality, and so board equality, is taken to compare both the seed and the flag.
  - `SetRandomSeed` is taken to set only the seed.
  - `ClearFlags` clears the flag.
  - `is_deterministic` is set to "the generator was not used" since the flags were cleared.
- `hash_combine` is not shown. The stat hash takes the combining step as a parameter.
- `Board::GetStageType` and the nine stage handlers other than the player's choose-board-move stage are not part of this model. They enter as the `Handlers` parameter.
  - A handler that throws while applying a move is taken to leave the board as it was handed over.
  - A handler that throws while listing moves is taken to leave the caller's list as it was, so moves it appended before throwing are not modelled.
  - Either error becomes `StageFailed` with the handler's code.
- The board's components are reduced to what these operations read, because the card, minion, hand, deck and secret headers are not part of this model.
  - A hand card is the catalogue's `Card`.
  - A minion is its card id.
  - A player stat is its crystal count.
  - `IsFull` is taken to mean seven minions (`MaxMinions`).
- The C++ unions (`Move::data`, `Board::data`, the card data) are products. Each action reads its own member.
  - A freshly declared move is taken to hold zeros.
  - With the placement switch off, a play move's location is that blank value.
- Integers are unbounded: `int` and `size_t` overflow is not modelled.
- The `reserve` call is a capacity hint. Only the count it guesses is modelled, as `GuessedNextMoves`.
- ChildNodeMaps.ChildType.SetNode: ownership through `unique_ptr` is not modelled, so deleting the previously owned node is not stated. The edge add-on's contents (EdgeAddon.h) are not part of this model.
- The following are not part of this model:
  - the C# UI wrapper (vs_projects/HearthstoneAI/AIEngine.cs);
  - the interop wrapper with its threads and wall-clock deadline (vs_projects/GameEngineCppWrapper/Source.cpp);
  - the card effect in card_CS2_022.h;
  - the abstract board-initializer interface.
- The child table is modelled single-threaded, as the code has no locking.
