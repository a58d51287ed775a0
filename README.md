# battleship-server core in Dafny

This project models the rule core of the battleship-server repository
(Go). That core is a coordinator for two-player Battleship games. Players
create a game, join it, place ten ships on a 100-cell board and then take
turns: moving a ship, revealing enemy cells, or firing at a cell. The server
decides whose turn it is and lets a waiting player take the turn, or win,
once the opponent has gone silent for too long. It pushes every state change
to each player's WebSocket connection.

The repository holds two generations of code that do not compile together,
and each is modelled against its own shapes:

- **The newer engine** (`service/game_service.go`).
  - Games are stored in a map from game id to game, and the event log is a
    sequence that is newest first.
  - Each operation is a pure decision on the store: `PlanSubmit`,
    `Arbitrate`, `PlanTurnChange`, `PlanMove`, `PlanReveal`, `PlanExplode`,
    `SocketConnectOutcome`.
  - A method of the class `GameServiceImpl` then performs the writes: the
    store, the log, and the outgoing socket messages.
  - The store invariant `Consistent` says each game's history starts with its
    players' joins. Every state-changing method keeps it.
  - From the invariant, lemmas prove:
    - no reachable game meets the nil-pointer or index-4 panics the code
      could otherwise raise;
    - the turn passes strictly between the two players;
    - a hit lets the shooter keep the turn.
- **The older board model** (`model/game.go`, `model/game_state.go`) and the
  **older service** (`service/game.go`).
  - Go maps are heap objects here (class `GoMap`), because the board methods
    have value receivers: their map writes persist, but their writes to
    struct fields are lost.
- **Id masking** (`utils/utils.go`).
  - `MaskId` swaps byte pairs (r, 23 − r), in an order drawn from a random
    source seeded by the byte sum.
  - It is proved to be an involution. That is why the same function masks
    ids on the way out and unmasks them on the way in.
- **Request validation and the per-player view** (`dto/game.go`).
- **The connection registry and event routing**:
  - `cache/cache.go`, `socket/cache.go`;
  - `events/connection_event_handler.go`, `socket/event_handler.go`;
  - `events/outgoing_events/outgoing_events.go`;
  - `SocketConnect` in the newer service.
  - Sockets are opaque handles. The `Network` class holds each handle's
    outbox and the set of closed handles.
- **Error values and their classification** (`dto/battleship_error.go`,
  `battle_error/battleship_error.go`).
  - Go's `error` is the datatype `GoError`, which also records run-time
    panics such as a nil-pointer dereference.

Behaviour of the code worth noting:

- **Re-joining.** A player already on side 2 who joins again is refused with
  `InvalidGameStatus`, because the game is no longer `Init` (see
  `JoinAdmitsOneOpponent`). It is not a no-op.
- **The forfeit check.** With exactly four events that share one author, the
  check reads a fifth event. `ForfeitVerdict` models that read as a panic.
  `ForfeitSafe` proves a `Consistent` store never reaches it.
- **Panics.** Several paths dereference pointers that can be nil. These are
  modelled as panics, and the lemmas show which of them cannot happen.
- **The ship-index message.** It says "between 1 and 100", but the code
  accepts 0 to 99.

## Model

Helper functions and lemmas that only serve a proof or restate a Go idiom (`Board.Lookup`, `Board.TrueKeys`, `Board.Exploded`, the `Sockets.Network` constructor and similar) have no row; `Board.Exploded` is stated by `Board.ExplodedEffect`.

| member | source | states |
|---|---|---|
| Errors.NatToString | dto/battleship_error.go:21-29 | the decimal text `%d` writes is non-empty and made only of digits |
| Errors.RecordText | battle_error/battleship_error.go:20-28 | the Sprintf text starts with "BattleError with message '" followed by the message, and ends with the cause part when there is a cause |
| Errors.ErrorText | dto/battleship_error.go:21-29 | a plain error's text is its own; each BattleError record's text starts with the fixed prefix followed by its message |
| Errors.RecordTextIsRecognisable | battle_error/battleship_error.go:20-28 | the formatted text of either BattleError record starts with "BattleError with message '", so it never equals the driver's not-found text, the hex prefix, or a sentinel message |
| BattleErrors.ConstructorFields | battle_error/battleship_error.go:73-143 | each constructor sets its HTTP status (400/401/403/404), message and code; BadRequest0 has an empty message; Forbidden carries both message and code |
| BattleErrors.ParseErrorMessage | battle_error/battleship_error.go:51-71 | not-found driver text gives 404 "not found" with the cause kept; "encoding/hex:" text gives 400 "Invalid id" with no code; anything else gives 500 "cannot parse error message: " + text; the first matching case wins |
| BattleErrors.ParseError | battle_error/battleship_error.go:33-49 | nil stays nil and only nil; every non-nil result is a battle_error record |
| BattleErrors.ParseErrorCopiesRecord | battle_error/battleship_error.go:38-45 | a battle_error record keeps HttpCode, Message and Data, gets the input as its Cause, and loses its ErrorCode |
| BattleErrors.ParseErrorIdempotent | battle_error/battleship_error.go:33-71 | parsing twice changes neither status, message nor data |
| BattleErrors.ParsedPlainStatuses | battle_error/battleship_error.go:51-71 | a plain error can only become 404, 400 or 500, and it becomes 404 exactly for the driver's not-found text |
| BattleErrors.ParseErrorOfDtoRecord | battle_error/battleship_error.go:63-69 | a dto record is not recognised and lands in the 500 default case with its formatted text |
| DtoErrors.ConstructorStatuses | dto/battleship_error.go:80-188 | each constructor family's status (400/401/403/404/409) and default message ("Bad request", "Not found", "duplicate request"; Duplicate11 has none) |
| DtoErrors.ParseErrorMessage | dto/battleship_error.go:52-78 | not-found gives 404 "not found" with cause; the two ship-move texts give 400 with code ShipInvalidMove; the not-your-turn text gives 403 with ShipInvalidMove; the hex prefix gives 400 "Invalid id"; the default is 500 with the text; the first matching case wins |
| DtoErrors.ParseError | dto/battleship_error.go:34-50 | nil stays nil and only nil; every non-nil result is a dto record |
| DtoErrors.ParseErrorCopiesRecord | dto/battleship_error.go:40-46 | a dto record keeps HttpErrorCode, ErrorMessage and ErrorData, gets the input as its cause, and loses its ErrorCode |
| DtoErrors.ParseErrorIdempotent | dto/battleship_error.go:34-78 | parsing twice changes nothing a client sees |
| DtoErrors.SentinelClassification | dto/battleship_error.go:55-67 | the ship-move sentinels map to 400 and NotUserTurn to 403 with ShipInvalidMove; the driver's not-found maps to "not found" |
| DtoErrors.ParseErrorOfBattleRecord | dto/battleship_error.go:68-77 | a battle_error record reaching the dto parser is not recognised: 500, with the record as its cause |
| Utils.Swap | utils/utils.go:24-32 | one exchange of positions r and 23 − r keeps the 24-byte length |
| Utils.Swaps | utils/utils.go:24-32 | the array after n of the swaps keeps the 24-byte length |
| Utils.MaskId | utils/utils.go:7-34 | the loop computes the masked id: an input whose length is not 24 is returned unchanged; otherwise the seed is the byte sum and 100 drawn swaps are applied |
| Utils.SumBytes | utils/utils.go:12-20 | the seed loop's result is the sum of the id's bytes |
| Utils.SwapMirror | utils/utils.go:27-31 | one loop step exchanges positions r and 23 − r of the array in place |
| Utils.FlippedMirror | utils/utils.go:24-32 | every swap touches r and 23 − r together, so a position and its mirror are exchanged the same number of times |
| Utils.SwapsAt | utils/utils.go:24-32 | closed form: after the swaps, each position holds either its own byte or its mirror's |
| Utils.SwapMultiset | utils/utils.go:27-31 | one swap keeps the multiset of bytes |
| Utils.SwapsMultiset | utils/utils.go:24-32 | all the swaps keep the multiset of bytes |
| Utils.SumRemove | utils/utils.go:12-20 | taking one byte out of the sequence lowers the seed by that byte's value |
| Utils.SumPermutation | utils/utils.go:12-20 | the seed is the same for any permutation of the bytes (and a nat, so the `seed < 0` branch is dead) |
| Utils.MaskedPermutes | utils/utils.go:7-34 | the masked id has the same length and the same multiset of bytes: a permutation of the input |
| Utils.MaskedSameSeed | utils/utils.go:12-20 | masking keeps the byte sum, so the masked id draws the same swap sequence |
| Utils.MaskedInvolution | utils/utils.go:7-34 | MaskId(MaskId(x)) == x for every x |
| Utils.MaskedInjective | utils/utils.go:7-34 | masked ids are equal exactly when the ids are |
| Utils.NonEmptyHasElement | utils/utils.go:38-46 | a non-empty key set has an element (the step GetMapKeySlice's loop takes) |
| Utils.GetMapKeySlice | utils/utils.go:38-46 | the slice has len(map) elements, no duplicates, and exactly the map's keys |
| Board.GoMap.constructor | model/game_state.go:12-15 | `make(map[int]bool)` is an empty map |
| Board.FindNeighborIndexes | model/game.go:106-129 | four cells, the first of them the index itself |
| Board.NeighborBranches | model/game.go:110-127 | plain cells take +1, +20, +21; the last column −1, +19, +20; the last row +1, −19, −20; cell 199 gives 198, 179, 178 (later corrections override earlier ones) |
| Board.NeighborBounds | model/game.go:106-128 | for every index in [0,200) all four neighbours are in [0,200) |
| Board.NeighborBlock | model/game.go:106-128 | the four neighbours are pairwise distinct and are exactly the cells of a 2×2 block on the 20-wide grid (rows and columns differ by at most 1) |
| Board.MoveOutcome | model/game.go:32-62 | a move fails iff the ship is missing or dead or the target is not a hidden cell, with the "already destroyed" or "revealed location" error in that order; on success the target holds a living ship, the old cell is gone and every other entry is unchanged |
| Board.MoveShipCount | model/game.go:33-36 | a successful move keeps the number of living ships, unless the target already held another ship, in which case it drops by one |
| Board.MoveShip | model/game.go:32-62 | the maps after the shared body of moveShipSide1/2 are the outcome's; the ground map and every other map are untouched; an error leaves both maps unchanged; a nil ships map reads as empty, so the move is refused with the already-destroyed error, as a read of a nil Go map finds nothing |
| Board.MoveShipSide1 | model/game.go:32-46 | moves within side 1's ships over side 1's ground and changes nothing else |
| Board.MoveShipSide2 | model/game.go:48-62 | moves within side 2's ships over side 2's ground and changes nothing else |
| Board.RevealSlot | model/game.go:64-84 | always returns the empty slice; afterwards keys 0, 1, 2, 3 (the loop's array positions, not the neighbour values) are present and false and all other keys are unchanged; a nil map panics |
| Board.RevealSlot1 | model/game.go:64-73 | RevealSlot on side 1's own ships map, nothing else touched |
| Board.RevealSlot2 | model/game.go:75-84 | RevealSlot on side 2's own ships map, nothing else touched |
| Board.ExplodedEffect | model/game.go:86-104 | the entry is deleted iff it held a living ship, every other entry is unchanged, and the living-ship set loses exactly that cell |
| Board.ExplodedIdempotent | model/game.go:86-104 | a second explosion on the same cell changes nothing |
| Board.Explode | model/game.go:86-104 | only the target ships map changes, as ExplodedEffect says; the game value (Status, Winner) is the caller's copy and stays as it was |
| Board.ExplodeSide1 | model/game.go:86-94 | explodes on side 1's own ships map and nothing else |
| Board.ExplodeSide2 | model/game.go:96-104 | explodes on side 2's own ships map and nothing else |
| Board.CreateGameState | model/game_state.go:10-36 | four fresh, pairwise distinct maps; both ground maps have exactly keys 0..199, all true; each ships map has exactly keys 0..len−1 of its own input, whatever the input values |
| Board.CreatedShipCount | model/game_state.go:17-23 | such a ships map has exactly len(input) living ships, so each side's count depends only on its own input |
| DtoGame.CheckIds | dto/game.go:32-42 | an empty user id is rejected before an empty game id; otherwise no error |
| DtoGame.CreateGameRequest.constructor | dto/game.go:10-13 | the request holds the given fields |
| DtoGame.CreateGameRequest.ValidateAndUnmask | dto/game.go:15-24 | it fails iff the user id is empty (the timeout test can never hold); on success the user id becomes MaskId of itself; the timeout is untouched |
| DtoGame.UserGameRequest.constructor | dto/game.go:28-30 | the request holds the given ids |
| DtoGame.UserGameRequest.ValidateAndUnmask | dto/game.go:32-42 | the ids are checked user first; on success both become their MaskId, on failure both are unchanged (also ChangeTurnRequest, lines 102-112) |
| DtoGame.SubmitShipsLocationsRequest.constructor | dto/game.go:45-48 | the request holds the given fields |
| DtoGame.SubmitShipsLocationsRequest.ValidateAndUnmask | dto/game.go:50-64 | the ids are checked first, then the index count must be 10 (repeats counted); on success both ids are masked; the indexes are untouched |
| DtoGame.MoveShipRequest.constructor | dto/game.go:74-78 | the request holds the given fields |
| DtoGame.MoveShipRequest.ValidateAndUnmask | dto/game.go:80-90 | the id checks; on success both ids are masked; the ship indexes are untouched |
| DtoGame.IndexRequest.constructor | dto/game.go:120-123 | the request holds the given fields |
| DtoGame.IndexRequest.ValidateAndUnmask | dto/game.go:125-135 | the id checks; on success both ids are masked; the index is untouched (also ExplodeRequest, lines 149-159) |
| DtoGame.FromGame | dto/game.go:196-245 | the field-by-field assignments leave the receiver equal to the requester's View |
| DtoGame.ViewSide1 | dto/game.go:206-223 | side 1's view: its turn iff Turn is 1; own ground and ships, the enemy's ground and revealed ships; OtherSideJoined iff side 2 is set; the user id is masked |
| DtoGame.ViewSide2 | dto/game.go:224-241 | the same for side 2 with the sides swapped and its turn iff Turn is 2 |
| DtoGame.ViewOutsider | dto/game.go:196-204 | anyone else gets no State, an empty UserId, YourTurn and OtherSideJoined false, and still Id, Status, MoveTimeoutSec and CreateDate; WinnerUser is set iff the game has a winner |
| DtoGame.ViewsMirror | dto/game.go:206-241 | each player's own ground is the other's enemy ground, and with Turn in {1,2} exactly one of them is told it is their turn |
| DtoGame.ViewUserIdUnmasks | dto/game.go:196-241 | masking a player's view's UserId and Id gives back the requester and the game id: the ids the router needs |
| Cache.GetUser | cache/cache.go:26-34 | succeeds iff one side's user id equals the argument, and then returns the argument; otherwise it returns the NotFound error naming the id |
| Cache.GetUserEmptySide | cache/cache.go:26-34 | in an entry with a free side the empty id is found |
| Cache.GameCache.constructor | cache/cache.go:11-17 | the registry starts empty |
| SocketCache.GetUser | socket/cache.go:26-34 | the same lookup over the socket package's registry, reporting with battle_error's NotFound |
| SocketCache.GetUserOfEmpty | socket/cache.go:26-34 | in an entry nobody registered on, exactly the empty id is found |
| SocketCache.GameCache.constructor | socket/cache.go:11-17 | the registry starts empty |
| Sockets.WriteError | events/outgoing_events/outgoing_events.go:44-47 | a write to a nil connection panics, one to a closed connection fails, one to an open connection succeeds |
| Sockets.DeliveredEffect | events/outgoing_events/outgoing_events.go:44-47 | a successful write appends exactly the message to its own connection's outbox; a failed one changes nothing; no other outbox changes |
| Sockets.Network.Write | events/outgoing_events/outgoing_events.go:44-47 | the outbox after WriteMessage, and its error as WriteError says |
| Sockets.Network.Close | socket/event_handler.go:57-63 | closing a nil connection panics; otherwise the connection is in the closed set afterwards |
| OutgoingEvents.RouteOf | events/outgoing_events/outgoing_events.go:29-42 | the registry is looked up under MaskId(gameId), with no entry meaning no target; then the side whose user id is MaskId(userId), side 1 first; otherwise the user is not a member |
| OutgoingEvents.RouteOfMaskedIds | events/outgoing_events/outgoing_events.go:29-42 | an event the service sends about real ids g and u, as MaskId(g) and MaskId(u), reaches u's socket in the entry registered under g, and never a stranger's |
| OutgoingEvents.PanicOnly | events/outgoing_events/outgoing_events.go:119-123 | a handler that only logs write errors still passes a panic on, and only a panic |
| OutgoingEvents.DispatchEffect | events/outgoing_events/outgoing_events.go:28-172 | a handler writes only to the routed socket; with an open socket the message is appended; it panics iff the routed socket is nil; it fails otherwise only for a stranger or, when it reports, a closed socket |
| OutgoingEvents.EndGameReachesBoth | events/outgoing_events/outgoing_events.go:174-194 | with two distinct open sockets both players get the message and no error; it panics iff a side never connected |
| OutgoingEvents.OutgoingEventHandler.constructor | events/outgoing_events/outgoing_events.go:24-26 | the handler uses the given registry, connections and random source |
| OutgoingEvents.OutgoingEventHandler.Deliver | events/outgoing_events/outgoing_events.go:28-50 | the lines shared by the six single-recipient handlers: the error and outboxes are Dispatch's for the route; nothing is closed |
| OutgoingEvents.OutgoingEventHandler.GameConnect | events/outgoing_events/outgoing_events.go:28-50 | the connect event goes to the routed socket and write errors are returned |
| OutgoingEvents.OutgoingEventHandler.GameStart | events/outgoing_events/outgoing_events.go:52-74 | routed by the DTO's own id and user id; write errors are returned |
| OutgoingEvents.OutgoingEventHandler.ChangeTurn | events/outgoing_events/outgoing_events.go:76-100 | the change-turn event goes to the routed socket and write errors are returned |
| OutgoingEvents.OutgoingEventHandler.MoveShip | events/outgoing_events/outgoing_events.go:102-124 | sent to the routed socket; a write error is swallowed, and only a panic escapes |
| OutgoingEvents.OutgoingEventHandler.Reveal | events/outgoing_events/outgoing_events.go:126-148 | as MoveShip, for the reveal event |
| OutgoingEvents.OutgoingEventHandler.Explosion | events/outgoing_events/outgoing_events.go:150-172 | as MoveShip, for the explosion event |
| OutgoingEvents.OutgoingEventHandler.EndGame | events/outgoing_events/outgoing_events.go:174-194 | writes to side 1 then side 2 of the entry, with no membership check, and returns only a panic |
| ConnectionEvents.SideOf | events/connection_event_handler.go:44-57 | side 1 iff side 1's id is the user's; side 2 iff not side 1 and side 2's id is the user's; otherwise a stranger |
| ConnectionEvents.Connected | events/connection_event_handler.go:44-51 | the player's slot gets the new socket and id, and the other side's slot is kept |
| ConnectionEvents.UserConnect | events/connection_event_handler.go:26-61 | a lookup error is returned with no change; a missing entry is created empty before the membership check; a stranger gets BadRequest and only that empty entry can remain; a player's slot is set and written back under the request's game id; the other side is told only if it is connected; nothing else changes |
| ConnectionEvents.SendConnectEvent | events/connection_event_handler.go:63-90 | nothing for a side that is not connected; a write error is only logged |
| ConnectionEvents.ConnectedRoutes | events/connection_event_handler.go:44-58 | after a player connects, events the service sends them with masked ids are routed to the new socket, and GetUser finds them |
| SocketEvents.Connected | socket/event_handler.go:55-64 | the local copy after a player's slot is set |
| SocketEvents.HandleOutcome | socket/event_handler.go:16-74 | an event other than Connect changes nothing; a failed game lookup returns its error; a stranger gets BadRequest "user does not belong to game" and nothing is closed; a member gets no error; a new game id gains only the empty entry; on an existing entry nothing is stored and the member's previous socket on their side is the one closed |
| SocketEvents.HandleEvents | socket/event_handler.go:16-74 | the registry and the closed sockets are HandleOutcome's, and the error is its error unless closing a nil socket panicked first; nothing is written |
| SocketEvents.RegistryStaysEmpty | socket/event_handler.go:39-64 | starting from empty entries, every entry stays empty whatever events arrive |
| SocketEvents.SecondConnectPanics | socket/event_handler.go:32-63 | a player's second connect to a game closes a nil connection and panics |
| SocketEvents.HandleOutcomeStored | socket/event_handler.go:16-74 | the corrected handler never closes a nil connection |
| SocketEvents.StoredReconnectReplaces | socket/event_handler.go:39-64 | with the entry stored, a connect registers the player where GetUser finds them, and a reconnect closes the first socket and registers the second, without a panic |
| SocketEvents.StoredKeepsOtherGames | socket/event_handler.go:32-37 | the corrected handler changes no other game's entry |
| SocketEvents.HandleEventsStored | socket/event_handler.go:16-74 | the corrected handler's registry, error and closed set are the stored outcome's; nothing is sent |
| GameModel.Hex | service/game_service.go:122-125 | reading a nil ObjectID pointer panics; otherwise it yields the id |
| GameModel.EventsOf | service/game_service.go:311 | FindMany gives exactly the log's events of that game, in log order (newest first) |
| GameModel.EventsOfInsert | service/game_service.go:353-358 | inserting a newer event puts it in front of its own game's list and leaves other lists alone |
| GameModel.EventsOfNone | service/game_service.go:94-99 | a game id no logged event refers to has no events |
| GameService.InitialShipsMisfiled | service/game_service.go:280-295 | because the event's GameId and UserId are swapped, a game's own event list never shows its initial ship locations; the event is filed under the user's id |
| GameService.BuildGround | service/game_service.go:59-62 | the fields map has exactly the 100 cells, all true |
| GameService.JoinOutcome | service/game_service.go:152-185 | the join succeeds iff the game is Init with a non-nil, non-zero side 1; status ≠ Init and a missing side 1 give their InvalidGameStatus errors |
| GameService.JoinAdmitsOneOpponent | service/game_service.go:152-185 | the creator joining changes nothing; the first other user takes side 2 and makes the game Joined; after that nobody, that user included, can join |
| GameService.KeysOf | service/game_service.go:201-214 | the distinct listed cells, each mapped to true |
| GameService.ShipsOfFleet | service/game_service.go:201-214 | a ship list is accepted iff all indexes are in [0,100) and exactly 10 are distinct; the fleet is then those cells |
| GameService.FleetCells | service/game_service.go:226 | the cells logged for an accepted fleet are exactly the request's indexes, ten of them |
| GameService.BuildShips | service/game_service.go:201-214 | the loop rejects the first index out of range, then fewer than 10 distinct indexes, otherwise it yields the fleet |
| GameService.Place | service/game_service.go:216-253 | the fleet goes to the requester's side, side 1 first; a side that already has ships gets Duplicate; a stranger gets BadRequest; a member whose side is empty succeeds exactly when both players are present, and a missing opponent is a nil-pointer panic; only that side's ships map changes, with players, id and turn kept |
| GameService.PlanSubmit | service/game_service.go:190-253 | a missing game is NotFound; a game that is not Joined gets InvalidGameStatus; an invalid fleet gets the fleet's error; otherwise the result is placing the fleet on the stored game |
| GameService.SubmitStartsOnSecondFleet | service/game_service.go:196-253 | a submission needs a Joined game; afterwards LastMoveTime is now; the game is Start iff the other side already has 10 ships (otherwise still Joined); the same side cannot submit again |
| GameService.Arbitrate | service/game_service.go:647-689 | admits exactly the player whose turn it is in a started game whose last move is at most 60 s old, flipping the turn and stamping the time; gates in order: not found, not Start, over 60 s (GameIsFinished), stranger (Forbidden); a member of a game in play who is out of turn gets NotUserTurn with the game unchanged; a missing player in a game in play is a nil-pointer panic, and that is the only panic |
| GameService.OneMoverAtATime | service/game_service.go:665-681 | two distinct players never both have the move, and with Turn in {1,2} one of them does |
| GameService.ForfeitVerdict | service/game_service.go:317-334 | a winner iff the five newest events share one author, who is the newest event's author; exactly four same-author events hit the index-4 overrun; the only other failure is a nil author |
| GameService.PlanTurnChange | service/game_service.go:297-344 | the player with the move always passes it, getting the flipped game with the time stamped and no winner; a member out of turn is refused with NotUserTurn unless the game id is set and LastMoveTime + timeout + 2 < now; then the turn flips, the move time is kept, and the forfeit check decides: its panic is returned, otherwise its winner (the author of the five newest events) finishes the game; arbiter errors other than NotUserTurn are returned |
| GameService.PlanMove | service/game_service.go:372-394 | a move succeeds exactly when the arbiter admits it and the board accepts it; the stored game is the moved board with the turn flipped and the time stamped; the arbiter's error, or else the board's, is returned |
| GameService.PlanReveal | service/game_service.go:443-456 | succeeds iff the arbiter admits; the enemy's side is revealed, then the turn flips and the time is stamped |
| GameService.PlanExplode | service/game_service.go:503-524 | succeeds iff the arbiter admits; the shot is at the enemy's side; a hit gives the turn back to the shooter, a miss leaves it with the opponent |
| GameService.HistoryPrepend | service/game_service.go:353-358 | logging an authored event of a two-player game keeps its History |
| GameService.ForfeitSafe | service/game_service.go:318-322 | in a two-player game with a History the forfeit check never overruns index 4 and never meets a nil author |
| GameService.RecordMove | service/game_service.go:346 | storing a changed game with the same players and logging one authored event keeps the store Consistent |
| GameService.RecordMoveAt | service/game_service.go:346 | the per-game step of RecordMove |
| GameService.RecordStore | service/game_service.go:346 | storing a changed game with the same players and logging nothing keeps the store Consistent |
| GameService.RecordJoin | service/game_service.go:161-176 | a join by another registered user, with its join event, keeps the store Consistent |
| GameService.JoinHistory | service/game_service.go:161-176 | the join event of a new side 2 extends the game's History |
| GameService.RecordCreate | service/game_service.go:64-99 | storing a new Init game with its creator's join event, under an id nothing refers to, keeps the store Consistent |
| GameService.PassTurn | service/game_service.go:665-681 | after a flip the opponent has the move and the mover does not |
| GameService.MoveAndRevealPassTheTurn | service/game_service.go:372-483 | in a Consistent store a successful move or reveal gives the move to the opponent |
| GameService.ExplodeTurnRule | service/game_service.go:512-524 | in a Consistent store, after a shot the shooter has the move iff it hit, the opponent iff it missed, and the move time is now |
| GameService.ChangeTurnSwapsMover | service/game_service.go:297-344 | ChangeTurn moves the turn to whoever did not have it |
| GameService.ArbiterNeverPanics | service/game_service.go:655-686 | in a Consistent store the arbiter never meets a nil player |
| GameService.ChangeTurnNeverPanics | service/game_service.go:297-344 | in a Consistent store ChangeTurn's decision never panics |
| GameService.SubmitNeverPanics | service/game_service.go:216-247 | in a Consistent store a submission never meets a nil player |
| GameService.GetGameView | service/game_service.go:117-134 | GetGame as written: a missing game is NotFound; an empty user id or a player gets their view; a stranger in a two-player game gets Forbidden; the only panic is a nil player id |
| GameService.GetGameStrangerPanics | service/game_service.go:122-125 | as written, a stranger asking for a game nobody has joined yet panics on the nil Side2User |
| GameService.GetGameCheckedRefusesStrangers | service/game_service.go:117-134 | the corrected check never panics: players and the empty id get their view, every stranger gets Forbidden, and it agrees with the code wherever that does not panic |
| GameService.SocketConnectOutcome | service/game_service.go:590-645 | a missing game is NotFound with no change; a stranger gets BadRequest, with only the requested empty entry added and nothing sent; a member of a game that is not Joined gets in and is stored on their side under the game's own id; in a Joined game a missing opponent is a nil-pointer panic, and otherwise the opponent's route gets GameConnect, and the member gets in unless that route is a nil connection (a panic that leaves their slot unstored); no existing entry is lost |
| GameService.SocketConnectRegisters | service/game_service.go:590-645 | in a game stored under its own id: a stranger is refused and nobody is told; a member gets in exactly when the game is not Joined or the opponent is present and not routed to a nil connection; a member who gets in is registered on their side, and events sent to them with masked ids reach the new socket; an opponent on an open socket receives the GameConnect event |
| GameService.GameServiceImpl.constructor | service/game_service.go:39-47 | an empty store and log over the given users, board and router, which is Consistent |
| GameService.GameServiceImpl.GetGame | service/game_service.go:117-134 | the corrected GetGame on the current store: NotFound, the requester's view for a player or an empty id, Forbidden for any stranger |
| GameService.GameServiceImpl.CreateGame | service/game_service.go:49-115 | an unknown user is NotFound with no change; otherwise the new game is Init, with side 1 the creator, no side 2 and no winner, turn 1 or 2, the given timeout, empty ship and revealed maps, both grounds equal to the full 100-cell map, and now as the time; its join event is logged; the answer is the creator's view; Consistent is kept |
| GameService.GameServiceImpl.JoinGame | service/game_service.go:136-186 | an unknown user or game is NotFound; a refused join changes nothing; the creator gets the view with no update; another user takes side 2, the game becomes Joined and the join is logged; Consistent is kept |
| GameService.GameServiceImpl.AnnounceStart | service/game_service.go:262-271 | the GameStart event carries the game as the other side sees it and goes wherever the router sends events for that view's ids |
| GameService.GameServiceImpl.SubmitShipsLocations | service/game_service.go:188-278 | a rejection changes nothing; a success stores the planned game and logs the ten cells under swapped ids; when the game starts, the other side gets GameStart with their view and its error is returned; otherwise the status and turn are returned; Consistent is kept |
| GameService.GameServiceImpl.ChangeTurn | service/game_service.go:297-370 | a refusal changes nothing; a forfeit sends EndGame to both sides and stores the Finished game unless that panics, logging nothing; otherwise the flipped game is stored, the change is logged and the other side is told, with only a panic returned; Consistent is kept |
| GameService.GameServiceImpl.MoveShip | service/game_service.go:372-422 | a refusal changes nothing; otherwise the moved game is stored, the move is logged, and the other side learns the old cell; the router's error is returned |
| GameService.GameServiceImpl.Reveal | service/game_service.go:443-501 | a refusal changes nothing; otherwise the game is stored, the reveal is logged, the other side is told the revealed cells and the neighbourhood, and the revealed cells are returned unless the send panicked |
| GameService.GameServiceImpl.Explode | service/game_service.go:503-588 | a refusal changes nothing; otherwise the shot is logged as an explosion or an empty explosion and the game stored; the other side is told; a finished game with a nil winner panics; one with a winner sends EndGame to both; hasShip is returned |
| GameService.GameServiceImpl.SocketConnect | service/game_service.go:590-645 | the error, registry and outboxes are SocketConnectOutcome's (admission of members, refusal of strangers, the GameConnect event); nothing is closed |
| LegacyService.NewLegacyGame | service/game.go:39-45 | side 1 is the creator; Status Init; MoveTimeoutSec 10; Turn is 1 or 2; no side 2 or winner; nil maps and no last move time |
| LegacyService.LegacyJoin | service/game.go:76-84 | status ≠ Init gives InvalidGameStatus; a nil side 1 panics; a user other than side 1 becomes side 2 with the status left Init; side 1's own user gives nothing to store |
| LegacyService.LegacyJoinReplacesSide2 | service/game.go:76-84 | since the status stays Init, a later user other than the creator joins again and replaces side 2 |
| LegacyService.LegacyGameService.constructor | service/game.go:24-29 | an empty store over the given users |
| LegacyService.LegacyGameService.GetGame | service/game.go:49-58 | the stored game, or the store's not-found error |
| LegacyService.LegacyGameService.CreateGame | service/game.go:31-47 | an unknown user is an error with no change; otherwise the new game is stored and its id returned |
| LegacyService.LegacyGameService.JoinGame | service/game.go:60-91 | an unknown user or game is an error; a status error changes nothing; the creator joining gives no update and no error; another user's join is stored unless Update fails, and Update's error is returned |

## Left out

- HTTP and WebSocket transport, JSON encoding of events, and logging (echo
  binding, the upgrader read loop, `MarshalEvent`, zerolog). The socket
  calls `WriteMessage` and `Close` are appends to an outbox and a closed
  set.
- Concurrency. The registry's mutex, its double-checked insert, and races
  between requests on one game are not modelled; every operation runs alone.
- The MongoDB store.
  - Games, users and events live in memory.
  - `FindMany`'s newest-first order is taken as given.
  - Insert and Update failures of the newer service are not modelled. The
    older JoinGame takes Update's answer as the parameter `updateErr`.
  - Store ids are taken to be valid hex ids.
  - The id the store assigns to a new game is a parameter, and it must be an
    id the store does not hold yet.
- The clock and `math/rand` are parameters: `now` in whole seconds, `coin`
  for the first turn, and `rng` for MaskId's random source. MaskId's draws
  are an arbitrary function of the seed, with values in [0,24).
- The newer board methods that `service/game_service.go` calls
  (`MoveShipSide*`, `RevealSlotSide*`, `ExplodeSide*`,
  `FindNeighborIndexes`). The newer model/game.go is not part of this model,
  so they are the abstract operations of `BoardOps`.
- The event DTOs, the older `GameDto`, and `JoinGameResponse`. They are not
  part of this model.
  - The connect handlers take the older GetGame's two side ids as a
    parameter.
  - The older GetGame returns the stored game.
- `SocketConnect` takes the game and user ids already unmasked. The
  UserConnectEvent validation it calls first is not part of this model.
- The user service and the user DAO. Registered users are a fixed set.
- CreateGame shares one ground map object between both sides. Maps are
  values in the newer model, so `NewGame` states that the two grounds are
  equal, not that they are one object.
- `battle_error.InvalidGameStatus`, which the older service uses, is not
  defined in the battle_error file. It is taken to have error_codes' value,
  1.
- JoinGameRequest and ChangeTurnRequest are the one class `UserGameRequest`.
  RevealEnemyFieldsRequest and ExplodeRequest are the one class
  `IndexRequest`. Their rules are identical.
- The stub `events/incoming_events/incoming_events.go`, wiring, and
  configuration have no rules to model.

## Findings

| source | as written | input that shows it | evidently intended | confidence | as-written member | corrected member |
|---|---|---|---|---|---|---|
| socket/event_handler.go:39-64 | the registry entry is edited in a local copy that is never stored back, so the registry only ever holds empty entries | a player connects to a game twice: the second connect finds the empty entry and calls Close on its nil socket | store the edited entry, and close a previous connection only when there is one | not executed | SocketEvents.SecondConnectPanics | SocketEvents.StoredReconnectReplaces |
| service/game_service.go:122-125 | the requester is compared with `Side2User.Hex()` without a nil check | GetGame of a game that was just created (no side 2) by a user id that is neither empty nor side 1's | refuse the stranger with Forbidden | not executed | GameService.GetGameStrangerPanics | GameService.GetGameCheckedRefusesStrangers |
