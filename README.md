# Ludo King server, AI and offline client rules in Dafny

This project models the core of a multiplayer Ludo game written in Go:
- the server's game engine: dice, moves, turn rotation, captures, the win check;
- the scripted computer opponent;
- the shared models and constants;
- the room and the room registry;
- the message validator;
- the rule functions of the desktop client's offline game against the computer.

It then proves properties of that model.

The files, one Dafny module each:

| file | module | models |
|---|---|---|
| `wrappers.dfy` | `Wrappers` | `Option`, for Go's nil results and error returns |
| `constants.dfy` | `Constants` | the constants, colours, message tags and board tables |
| `models.dfy` | `Models` | tokens, players, the room record and the board; the constructors |
| `engine.dfy` | `Game` | the server engine, a class over the shared heap objects |
| `ai.dfy` | `Ai` | the computer opponent, over value snapshots of the player and board |
| `agreement.dfy` | `Agreement` | how the opponent's copy of the move rules relates to the engine's |
| `room.dfy` | `Rooms` | one live room: seats, connections, ready flags, starting the engine |
| `manager.dfy` | `Registry` | the registry of rooms by id |
| `validator.dfy` | `Protocol` | message and field validation |
| `client.dfy` | `LocalGame` | the client's offline rules: its own tables, move rule, capture, win check, rigged dice, computer turn |

State the Go code updates in place is modelled as classes whose methods name what they modify:
- the engine;
- the room;
- the registry;
- the offline client;
- tokens, players, the room record and the board.

Loops in the source are methods with loop invariants, proved against specification functions. The opponent only reads the game, so it works on value snapshots. `Agreement.Mirrors` ties such a snapshot to the engine's board.

A few behaviours of the source are modelled as written, and stated in the contracts:
- `MoveToken` writes the mover into its destination cell before the capture check reads that cell. The check therefore never captures: `Game.Engine.Advance` ensures the reported capture is always null. An opposing token that stood there is left referenced by no ring cell.
- A token becomes home only past stretch index 5. The move check refuses any destination beyond 57, so no token ever becomes home. `Game.Engine.Conclude` relies on this to show that a move never ends the game.
- The engine keeps the last dice value after a move, so the same player's next `MoveToken` reuses it.
- `RemovePlayer` does not adjust the turn index, so after a removal the index can point past the last seat.
- `CreateRoom` does not check the requested capacity. A fifth player can join a room of capacity above 4, and then gets no colour (`NoColor`, Go's empty colour).
- The validator checks payloads only for the lower-case tags `create_room`, `join_room` and `connect`. Every message tag the program defines is upper case, so those messages pass unchecked (`Protocol.ProgramTagsAreNotChecked`).
- The offline client reads stretch positions (52 and above) as ring cells. A token that has finished, at 57, can therefore move again, back onto ring cell 5 + dice (`LocalGame.HomeTokenReturnsToRing`). The client's own computer player never moves a finished token.

## Model

| member | source | states |
|---|---|---|
| Constants.ColorIndex | internal/shared/constants/constants.go:40-45 | each of the four colours has a stretch row below 4, and that row is the colour's own |
| Constants.StartingPositionsDistinct | internal/shared/constants/constants.go:90-95 | the four colours enter the ring on four different cells, all on the ring |
| Constants.StartingPositionsAreSafe | internal/shared/constants/constants.go:90-98 | every colour's entry cell is a safe cell |
| Constants.SafePositionsTable | internal/shared/constants/constants.go:98 | there are 8 safe cells, all on the ring, listed in increasing order |
| Constants.HomeStretchStartPrecedesStart | internal/shared/constants/constants.go:101-106 | each colour turns into its stretch 50 cells after its entry cell |
| Constants.DiceConstants | internal/shared/constants/constants.go:18-22 | the dice shows 1..6; a 6 both leaves base and grants another roll; three sixes in a row forfeit the turn |
| Constants.PlayerLimits | internal/shared/constants/constants.go:7-8 | 2 to 4 players, with one distinct colour for each of the 4 seats |
| Models.Contains | internal/shared/models/models.go:252-259 | true exactly when the value occurs in the slice |
| Models.NewPlayer | internal/shared/models/models.go:188-211 | a connected, not ready, human player with four distinct fresh tokens 0..3 of its colour, all in base |
| Models.NewAIPlayer | internal/shared/models/models.go:214-220 | the same as a new player, but a ready computer player with id 0 and the given level |
| Models.NewBoard | internal/shared/models/models.go:223-250 | an empty board of 52 ring cells and four 6-cell stretches, with ring cells marked safe exactly at the safe positions |
| Game.CalculateNewPosition | internal/server/game/engine.go:280-300 | the destination rule itself; for any position the game produces it lies between 0 and 63, on the ring for the colourless player (its path is proved by `Game.DestinationFollowsPath`) |
| Game.CalculateNewPositionRange | internal/server/game/engine.go:280-300 | a destination lies between 0 and 63; the colourless player stays on the ring; a stretch token moves by exactly the dice |
| Game.DestinationFollowsPath | internal/server/game/engine.go:280-300 | leaving base lands on the first cell of the colour's path, and a move of d from a path cell lands d steps further along the path |
| Game.RiggedDice | internal/server/game/engine.go:111-124 | the face is in 1..6, and is a 6 on a player's first roll and on every fifth |
| Game.NextSeat | internal/server/game/engine.go:365 | the next seat is in range, even from a stale index past the last seat; from a seat it is the following one, wrapping to seat 0 after the last |
| Game.OthersExactly | internal/server/game/engine.go:426-430 | the players ranked after the winner are exactly the seated players with another id, and no more of them than seats |
| Game.Engine.constructor | internal/server/game/engine.go:36-62 | a fresh empty board, a zero roll count for every seated id, no history, no winner, no rankings; the engine is consistent exactly when every seat's tokens are well formed and the last die is 0 or a face |
| Game.Engine.CanMoveToken | internal/server/game/engine.go:247-277 | the move rule itself: a token home never moves, a base token only on a 6, and a move never overshoots position 57; `Agreement.MovableAgreesOffBase` and `Agreement.BaseExitDiverges` compare it with the opponent's rule |
| Game.Engine.HasValidMove | internal/server/game/engine.go:237-244 | true exactly when some token of the player may move by the dice |
| Game.Engine.Start | internal/server/game/engine.go:65-98 | refuses a game no longer waiting, then fewer than 2 players, changing nothing; otherwise playing, with some seat to play, announced; a consistent engine stays consistent |
| Game.Engine.NextTurn | internal/server/game/engine.go:364-377 | the turn passes to the next seat, also from a stale index past the last seat, and the new seat is announced |
| Game.Engine.TurnTimeout | internal/server/game/engine.go:405-414 | when the timer fires, the turn passes only if the player it was armed for is still the one to play; otherwise nothing changes |
| Game.Engine.RecordRoll | internal/server/game/engine.go:111-126 | the roller's count goes up by one, the face is the rigged face for that count, and it becomes the last dice |
| Game.Engine.ApplyRoll | internal/server/game/engine.go:128-157 | a third six in a row resets the streak and passes the turn; another six grants a roll; any other face resets the streak and passes the turn only when nothing can move |
| Game.Engine.RollDice | internal/server/game/engine.go:101-160 | refuses anyone but the player to play, changing nothing; otherwise counts and records the roll, then applies the streak and turn rules above, keeping the engine consistent |
| Game.Engine.Vacate | internal/server/game/engine.go:304-310 | the token's ring cell, or its stretch cell, no longer references it; every other cell is unchanged |
| Game.Engine.Place | internal/server/game/engine.go:312-324 | the token is at its new position; a ring cell references it and its safe flag copies the cell's; a stretch cell references it; only past the stretch is it home |
| Game.Engine.MoveTokenToPosition | internal/server/game/engine.go:303-325 | the old cell is emptied and the new one references the token, with every other cell unchanged and the board kept consistent |
| Game.Engine.CheckCapture | internal/server/game/engine.go:328-350 | a token of another colour on a non-safe ring cell goes back to base, safe and not home, and its cell is emptied; otherwise nothing changes |
| Game.Engine.CheckWin | internal/server/game/engine.go:353-361 | a win exactly when every token is home, and then all four count as home |
| Game.Engine.EndGame | internal/server/game/engine.go:418-437 | the game is finished with this winner, ranked first, followed by every other player in seat order |
| Game.Engine.Advance | internal/server/game/engine.go:184-191 | the token lands on its computed destination and never becomes home; its old ring or stretch cell is emptied and a destination stretch cell references it, other ring and stretch cells are unchanged; the capture check finds nothing, and an opposing token that stood there is left off the board |
| Game.Engine.Conclude | internal/server/game/engine.go:222-231 | no win is possible, so a 6 keeps the turn and any other face passes it |
| Game.Engine.Record | internal/server/game/engine.go:193-231 | after a move that captured nothing: the action is appended to the history and reported, then a 6 keeps the turn and any other face passes it and is announced |
| Game.Engine.Play | internal/server/game/engine.go:184-231 | an accepted move: the token lands on its destination ring or stretch cell and never becomes home, its old cell is emptied and all other ring and stretch cells are unchanged, the action is recorded with no capture, and the turn passes unless the dice was a 6 |
| Game.Engine.MoveToken | internal/server/game/engine.go:163-234 | refuses, in order, anyone but the player to play, a bad token id, and a move the rules forbid, each changing nothing; succeeds exactly when the caller is the player to play, the token id is 0 to 3 and the rules allow the move, and then moves the token by the last dice from its old ring or stretch cell to its new one, leaving every other cell unchanged, records the action and passes the turn unless it was a 6 |
| Ai.CalculateNewPosition | pkg/ai/ai.go:232-254 | the opponent's copy of the destination rule, between 0 and 63 for any position the game produces; `Agreement.SameDestination` proves it equal to the engine's |
| Ai.CanMoveToken | pkg/ai/ai.go:193-229 | the opponent's move rule: a token home never moves, a base token moves exactly on a 6, and a move never overshoots 57; `Ai.ValidTokensExactly` and the agreement lemmas build on it |
| Ai.CanCapture | pkg/ai/ai.go:257-273 | a capture only on a ring cell holding a token of another colour; `Agreement.CaptureAgrees` shows it is the engine's capture condition |
| Ai.CalculateNewPositionRange | pkg/ai/ai.go:232-254 | the opponent's destinations stay between 0 and 63, and on the ring for the colourless player |
| Ai.Abs | pkg/ai/ai.go:346-351 | a non-negative value equal to x or to -x |
| Ai.ValidTokensExactly | pkg/ai/ai.go:180-190 | the valid tokens are exactly the player's tokens that may move, and no more of them than tokens |
| Ai.ValidTokensEmpty | pkg/ai/ai.go:180-190 | there is no valid token exactly when no token may move |
| Ai.IsSafePosition | pkg/ai/ai.go:276-287 | safe exactly in base, in a stretch, or on a listed safe cell |
| Ai.IsTokenIsolated | pkg/ai/ai.go:290-308 | isolated exactly when on the ring with no other token of the player off base within 6 positions |
| Ai.IsPositionDangerous | pkg/ai/ai.go:311-326 | dangerous exactly when not safe and an opponent stands 1 to 6 ring cells behind |
| Ai.BlocksOpponent | pkg/ai/ai.go:329-344 | blocks exactly when on the ring with a token past position 45 standing 1 to 6 cells ahead |
| Ai.EvaluateMove | pkg/ai/ai.go:134-177 | the score is the sum of the capture, exit, stretch, safety, progress, isolation, danger and blocking terms |
| Ai.GetValidTokens | pkg/ai/ai.go:180-190 | the tokens that may move, in token order |
| Ai.SelectTokenEasy | pkg/ai/ai.go:58-64 | nothing exactly when no token may move, otherwise one that may |
| Ai.FirstCapture | pkg/ai/ai.go:74-79 | the first valid token whose move captures, or none when no move captures |
| Ai.FirstInBase | pkg/ai/ai.go:82-88 | the first valid token still in base, or none |
| Ai.Furthest | pkg/ai/ai.go:91-98 | the first valid token with the highest position, or none when every valid token is in base |
| Ai.SelectTokenMedium | pkg/ai/ai.go:67-101 | the first capturing move; else, on a 6, the first token in base; else the first most advanced token; nothing exactly when no token may move |
| Ai.SelectTokenHard | pkg/ai/ai.go:104-131 | the first valid token with the highest score; nothing exactly when no token may move |
| Ai.SelectToken | pkg/ai/ai.go:41-55 | easy and hard pick by their rules, and every other level picks as medium |
| Agreement.MovableAgreesOffBase | pkg/ai/ai.go:193-229 | over a faithful snapshot of a consistent board, the opponent and the engine agree on whether a token out of base may move |
| Agreement.BaseExitDiverges | pkg/ai/ai.go:205-207 | a base token with a 6 is always movable for the opponent, but the engine refuses it when its own colour occupies the entry cell |
| Agreement.CaptureAgrees | pkg/ai/ai.go:257-273 | over a faithful snapshot, the opponent predicts a capture exactly when the engine's capture check (internal/server/game/engine.go:328-350) would send the cell's token back to base |
| Agreement.SameDestination | pkg/ai/ai.go:232-254 | the opponent computes every destination exactly as the engine does |
| Rooms.PickColor | internal/server/room/room.go:54-70 | the first colour, in the order red, blue, green, yellow, that no seated player has; no colour exactly when all four are taken |
| Rooms.FirstIndex | internal/server/room/room.go:92-98 | the first seat with the id, or -1 when no seat has it |
| Rooms.IndexOf | internal/server/room/room.go:92-98 | the same first seat, found by a loop |
| Rooms.SeatedIdsBound | internal/server/room/room.go:235-239 | there are no more distinct seated ids than seats |
| Rooms.Room.AddPlayer | internal/server/room/room.go:40-85 | refuses a full room, then a player already connected, changing nothing; succeeds exactly when the room is not full and the id is not connected, and then appends a fresh, well-formed, not-ready player with the first free colour and records the connection; a playable room stays playable |
| Rooms.Room.RemovePlayer | internal/server/room/room.go:87-106 | drops the connection and the first seat with the id; if the host left and someone remains, the first seat becomes host; a playable room stays playable |
| Rooms.Room.Unseat | internal/server/room/room.go:91-100 | drops the connection and splices out the first seat with the id, leaving every other seat in order; a playable room stays playable |
| Rooms.Room.HandOver | internal/server/room/room.go:102-105 | if the host is gone and someone remains, the first seat becomes host; otherwise the host is unchanged |
| Rooms.Room.SetPlayerReady | internal/server/room/room.go:110-130 | refuses a player who is not connected; otherwise sets the ready flag on the connection and on the first seat with the id, and nothing else; a playable room stays playable |
| Rooms.Room.CanStart | internal/server/room/room.go:133-149 | true exactly when at least 2 are seated and every connection is ready |
| Rooms.Room.Start | internal/server/room/room.go:151-225 | needs a playable room and, if an engine exists, a consistent one; refuses a started game, changing nothing; otherwise creates the engine once (a fresh empty board, zero roll counts for the seated ids, no history, winner or rankings) or keeps the existing engine's counts, history, winner and rankings, and starts it, passing on its refusal, or is playing with a seat to play; the turn announcement is appended only on success; the engine is consistent afterwards |
| Rooms.Room.Prepare | internal/server/room/room.go:159-212 | keeps an existing engine; otherwise attaches a fresh engine with an empty board, zero roll counts for the seated ids and no history or events; either way the engine is consistent |
| Rooms.Room.PlayerCount | internal/server/room/room.go:235-239 | the number of connections, zero exactly when the room is empty, and in a consistent room never more than its seats |
| Rooms.Room.CountBounded | internal/server/room/room.go:235-239 | in a consistent room every connection has a seat, so connections never outnumber seats |
| Registry.NonEmpty | internal/server/room/manager.go:143-152 | the rooms that still have a connection, and only those |
| Registry.SweepShrinks | internal/server/room/manager.go:136-152 | a sweep never raises the room count, and leaves it unchanged exactly when no registered room is empty |
| Registry.SweepIdempotent | internal/server/room/manager.go:143-152 | a second sweep removes nothing more |
| Registry.Manager.constructor | internal/server/room/manager.go:20-24 | a registry with no rooms |
| Registry.OpenRoom | internal/server/room/manager.go:32-64 | a fresh, consistent, waiting room with no engine, the host as its only seat, well formed and in red, and its only connection; playable, with no die rolled |
| Registry.Manager.CreateRoom | internal/server/room/manager.go:27-72 | registers a fresh waiting room under the id, with the host as its only seat, in red, and its only connection; the room is playable with no die rolled; the room count grows by one for a new id |
| Registry.Manager.GetRoom | internal/server/room/manager.go:75-85 | the room under the id, or not found |
| Registry.Manager.JoinRoom | internal/server/room/manager.go:88-99 | not found, or the room's refusal passed on, changing nothing; for a registered room, succeeds exactly when it is not full and the id is not connected, and then returns the room with the player connected and seated last as a fresh, well-formed, not-ready player with that id and name and the first free colour; a playable room stays playable |
| Registry.Manager.LeaveRoom | internal/server/room/manager.go:102-118 | not found; otherwise the player's connection and first seat are dropped, the first remaining seat becomes host if the host left, and the room is unregistered exactly when nobody is left connected; a playable room stays playable |
| Registry.Manager.ListRooms | internal/server/room/manager.go:121-133 | exactly the records of the registered public rooms still waiting, one entry per such room |
| Registry.Manager.CleanupEmptyRooms | internal/server/room/manager.go:143-152 | unregisters exactly the rooms nobody is connected to; the room count never rises, and stays the same exactly when no registered room is empty |
| Registry.Manager.RoomCount | internal/server/room/manager.go:136-140 | the number of registered rooms; its partners are CreateRoom (one more for a new id), CleanupEmptyRooms and SweepShrinks (never more, the same exactly when no room is empty) |
| Protocol.ByteLen | internal/shared/protocol/validator.go:152-158 | Go's length of a string: at least its number of characters, at most four times it, equal exactly for ASCII |
| Protocol.TrimStart | internal/shared/protocol/validator.go:146 | a suffix of the input, missing only white space, starting with a non-space |
| Protocol.TrimEnd | internal/shared/protocol/validator.go:146 | a prefix of the input, missing only white space, ending with a non-space |
| Protocol.Trim | internal/shared/protocol/validator.go:146 | an infix of the input, with only white space cut on either side, starting and ending with a non-space |
| Protocol.TrimIdempotent | internal/shared/protocol/validator.go:146 | trimming twice trims nothing more |
| Protocol.ValidateUsername | internal/shared/protocol/validator.go:145-168 | on the trimmed name: empty, then under 3 bytes, then over 20 bytes are refused, and the rest are accepted exactly when every character is allowed |
| Protocol.AcceptedUsernameIsAscii | internal/shared/protocol/validator.go:171-176 | an accepted username is ASCII, so its length is 3 to 20 characters |
| Protocol.ValidateRoomName | internal/shared/protocol/validator.go:179-195 | accepted exactly when the trimmed name has 3 to 50 bytes, with empty, too short and too long told apart |
| Protocol.RoomNameVerdictIgnoresSpaces | internal/shared/protocol/validator.go:180 | a name and its trimmed form get the same verdict |
| Protocol.ValidateCreateRoom | internal/shared/protocol/validator.go:87-106 | accepted exactly when the payload decodes, the trimmed name is not empty, the capacity is 2 to 4 and the username is not empty; an undecodable payload, a blank name, a bad capacity and an empty username are refused in that order, each with its own code |
| Protocol.ValidateJoinRoom | internal/shared/protocol/validator.go:109-124 | accepted exactly when the payload decodes and both the room id and the username are non-empty; an undecodable payload, an empty room id and an empty username are refused in that order, each with its own code |
| Protocol.ValidateConnect | internal/shared/protocol/validator.go:127-142 | accepted exactly when the payload decodes, the trimmed username is not empty, and the untrimmed one has 3 to 20 bytes; an undecodable payload, a blank username and a length outside 3 to 20 are refused in that order, each with its own code |
| Protocol.ValidateMessage | internal/shared/protocol/validator.go:21-42 | a missing message and an empty type are refused; the three lower-case tags get their payload checks; any other type passes |
| Protocol.ProgramTagsAreNotChecked | internal/shared/constants/constants.go:61-67 | every tag the program sends passes validation, whatever its payload |
| Protocol.CreateRoomLaxerThanFieldValidators | internal/shared/protocol/validator.go:93-101 | a create-room request passes with a blank username and a 2-letter room name, a name the room-name validator refuses as too short |
| Protocol.ConnectCountsSurroundingSpaces | internal/shared/protocol/validator.go:137 | a connect request is length-checked before trimming, so " ab" passes although its trimmed name is too short |
| LocalGame.ClientStart | cmd/client/main.go:81-86 | every entry cell of the client is a ring cell |
| LocalGame.ClientTablesDiffer | cmd/client/main.go:81-90 | each client safe cell is one past a server safe cell, so no entry cell is safe; blue and green enter where the server makes yellow and blue enter |
| LocalGame.GoRem | cmd/client/main.go:982 | Go's remainder: within ±n, equal to the Euclidean remainder for a non-negative dividend, and odd in the dividend |
| LocalGame.Relative | cmd/client/main.go:982 | for a ring cell, its distance along the colour's lap from the entry cell |
| LocalGame.ClientDestination | cmd/client/main.go:1086-1112 | a base token leaves exactly on a 6, to its entry cell; any other token moves exactly when its new distance is at most 57 |
| LocalGame.DestinationAdvances | cmd/client/main.go:1096-1112 | a move from the board advances the token exactly dice steps: a ring destination lies dice further along the lap, a stretch one is the new distance |
| LocalGame.HomeTokenReturnsToRing | cmd/client/main.go:1096-1112 | for every colour and every face, a token at 57 may move and lands on ring cell 5 + dice |
| LocalGame.AiEligibleIsHumanRuleShortOfHome | cmd/client/main.go:1320-1345 | the computer may move exactly the tokens a human may, minus those already at 57 |
| LocalGame.RiggedSixWithinFiveRolls | cmd/client/main.go:1182-1191 | with one counter for all seats, any five consecutive rolls hold a 6, whatever the clock gives |
| LocalGame.Client.constructor | cmd/client/main.go:703-714 | a client whose board has just been shown: no dice, no selection, no roll made yet, and my turn exactly when seat 0 plays; consistent exactly when the seat to play exists and each token has its owner's colour |
| LocalGame.Client.RollDiceWithCheat | cmd/client/main.go:1182-1191 | the shared counter goes up by one and the face is the rigged face for that count |
| LocalGame.Client.CanMoveToken | cmd/client/main.go:964-987 | movable exactly on my turn, with a dice rolled, for my own token, when the move rule gives a destination |
| LocalGame.Client.SendBack | cmd/client/main.go:1155-1164 | every token of the seat standing on the square goes back to base; nothing else changes |
| LocalGame.Client.CheckCapture | cmd/client/main.go:1145-1166 | on a capturing square, every token of another colour standing there goes back to base; nothing else changes |
| LocalGame.Client.CheckWin | cmd/client/main.go:1169-1176 | a win exactly when every token of the player is at 57 |
| LocalGame.Client.NextTurn | cmd/client/main.go:1254-1264 | the next seat plays, with no dice and no selection; it is my turn exactly when that seat is mine |
| LocalGame.Client.Relocate | cmd/client/main.go:1086-1116 | the token stands on its destination, and other colours standing there are captured |
| LocalGame.Client.MoveSelectedToken | cmd/client/main.go:1079-1143 | a move the rule refuses changes nothing; otherwise the token reaches its destination, other colours there are captured, the win is reported exactly when all tokens are at 57, and a 6 keeps the turn while any other face passes it |
| LocalGame.Client.FirstEligible | cmd/client/main.go:1316-1345 | the first token the computer may move, or none |
| LocalGame.Client.PlayAITurn | cmd/client/main.go:1291-1363 | only a computer seat plays; it rolls with the shared counter, moves its first eligible token to the human rule's destination and captures there, and plays again exactly after a 6 that moved a token, keeping the turn, the turn flag and the selection; otherwise the turn passes and the selection is cleared; a human seat changes nothing |

## Left out

- Concurrency and time: the mutexes, the goroutines and sleeps that pace computer turns (`handleAITurn`, `playAITurns` re-launching itself, `nextTurn` launching it), and the turn timer's scheduling. Each public method is one atomic step. The timer callback is `Game.Engine.TurnTimeout`, and a further computer turn is signalled by `again` instead of a goroutine.
- `handleAITurn`, and the engine's per-player map of opponents built in `NewEngine`: the wiring that asks the opponent for a token and replays it through `MoveToken`. Both halves are modelled (`Ai.SelectToken`, `Game.Engine.MoveToken`).
- Randomness: the dice face and the clock-based face of the client are parameters `draw` in 0..5. The engine's first seat and easy's pick are any valid choice.
- The engine callbacks and the room's channels, run loop, `handleMessage` and `Close`. Callbacks become an abstract event log (`Game.Engine.events`); the room's messages are not modelled.
- `generateRoomID`, which reads the clock: the room id is a parameter of `Registry.Manager.CreateRoom`.
- `ExtractPayload` and JSON encoding. A message carries, per payload record, what decoding would give, or nothing when decoding fails.
- Timestamps, join times, `StartedAt`, the user record, the statistics and the database layer.
- The client's user interface, rendering, network goroutines and tap hit-testing, and `createAIGame`.
- The human's handlers `onDiceRoll` and `onBoardTapped`. Each locks the client's `sync.Mutex` (cmd/client/main.go:116, 991, 1194) and then calls `canMoveToken`, which locks the same mutex again (cmd/client/main.go:965). Go's mutex is not re-entrant, so in the program the human's roll or tap blocks forever and `moveSelectedToken` is never reached from them. `LocalGame.Client.CanMoveToken` and `LocalGame.Client.MoveSelectedToken` model the rules those handlers apply, without the lock.
- Game.Engine.TurnTimeout, Game.Engine.RollDice, Game.Engine.MoveToken: require the turn index to name a seat. In Go, an index past the last seat, which `RemovePlayer` can leave behind, makes `Players[CurrentTurn]` panic (internal/server/game/engine.go:106, 167, 409); the panic is not modelled. `nextTurn` wraps the index before reading the seat (internal/server/game/engine.go:365-366), so `Game.Engine.NextTurn` accepts a stale index and needs only one seat (with none, Go's `%` panics).
- LocalGame.Client: the nil game-state guards of `nextTurn` and `playAITurns` are left out, because the modelled client always has a game.
- Protocol.ValidateUsername: Go ranges over a string's runes, and an invalid UTF-8 byte reads as U+FFFD. Strings here are sequences of Unicode scalar values, so invalid UTF-8 is not representable.
- LocalGame.Client.constructor: starts the roll counter at 0, as a newly created client does (cmd/client/main.go:142). `showGameBoard` itself does not reset the counter, so in the program a second game continues the first one's count.
- `GetGameState`, which copies the engine's state for broadcasting, and the opponent's constructor `NewAIPlayer` in pkg/ai, which only stores the level tag that `Ai.SelectToken` takes as a parameter.
- cmd/server/main.go, the database, the audio manager and the client's network code are not part of this model.
