/** The records of the newer engine: model.Game with its Joined status, the
    100-cell GameState of six maps, and the GameEvent log entries.  The
    newer model/game.go is not part of this model; its board methods enter
    as BoardOps below. */
module GameModel {
  import opened Errors
  import opened Utils
  import BattleErrors

  datatype Status = Init | Joined | Start | Finished

  /** Maps are values here: a game is always stored (and so copied) before
      any of its maps is read again, so sharing between fields is invisible. */
  datatype GameState = GameState(
    side1Ships: map<int, bool>,
    side1Ground: map<int, bool>,
    side2Ships: map<int, bool>,
    side2Ground: map<int, bool>,
    side1RevealedShips: map<int, bool>,
    side2RevealedShips: map<int, bool>)


  const EmptyState: GameState := GameState(map[], map[], map[], map[], map[], map[])

  /** model.Game of the newer engine; times are whole seconds. */
  datatype Game = Game(
    id: Id,
    state: GameState,
    status: Status,
    side1User: Option<Id>,
    side2User: Option<Id>,
    turn: int,
    lastMoveTime: int,
    moveTimeoutSec: int,
    createDate: int,
    winnerUser: Option<Id>)

  /** The hex form of the zero ObjectID: 24 '0' characters. */
  const ZeroId: Id := [48, 48, 48, 48, 48, 48, 48, 48, 48, 48, 48, 48, 48, 48, 48, 48, 48, 48, 48, 48, 48, 48, 48, 48]

  predicate IsZero(id: Id) {
    id == ZeroId
  }

  /** (*ObjectID).Hex() on a pointer: a nil pointer panics. */
  function Hex(p: Option<Id>): (r: Result<Id>)
    ensures r.Ok? <==> p.Some?
    ensures r.Ok? ==> r.value == p.value
    ensures r.Err? ==> r.error == NilDeref
  {
    if p.None? then Err(NilDeref) else Ok(p.value)
  }

  datatype EventType = JoinGame | InitialShipsLocations | MoveShip | Explosion | EmptyExplosion | ChangeTurn | Reveal

  /** model.GameEvent; the optional integer payloads are pointers in Go. */
  datatype GameEvent = GameEvent(
    kind: EventType,
    gameId: Id,
    userId: Option<Id>,
    time: int,
    initialShipsLocations: seq<int>,
    moveShipFrom: Option<int>,
    moveShipTo: Option<int>,
    discoverEnemy: seq<int>,
    discoverEnemyShips: seq<int>,
    explosion: Option<int>,
    emptyExplosion: Option<int>)

  /** An event with no payload, like the JoinGame and ChangeTurn events. */
  function PlainEvent(kind: EventType, gameId: Id, userId: Id, time: int): GameEvent {
    GameEvent(kind, gameId, Some(userId), time, [], None, None, [], [], None, None)
  }

  /** FindMany: the events of one game, in the order of the log (newest first). */
  function EventsOf(log: seq<GameEvent>, gameId: Id): (r: seq<GameEvent>)
    ensures |r| <= |log|
    ensures forall e :: e in r ==> e in log && e.gameId == gameId
    ensures forall e :: e in log && e.gameId == gameId ==> e in r
  {
    if log == [] then []
    else if log[0].gameId == gameId then [log[0]] + EventsOf(log[1..], gameId)
    else EventsOf(log[1..], gameId)
  }

  /** Inserting a newer event puts it in front of its own game's list and
      leaves every other game's list alone. */
  lemma EventsOfInsert(e: GameEvent, log: seq<GameEvent>, gameId: Id)
    ensures e.gameId == gameId ==> EventsOf([e] + log, gameId) == [e] + EventsOf(log, gameId)
    ensures e.gameId != gameId ==> EventsOf([e] + log, gameId) == EventsOf(log, gameId)
  {
    assert ([e] + log)[1..] == log;
  }

  /** A game no logged event refers to has no events. */
  lemma {:induction false} EventsOfNone(log: seq<GameEvent>, gameId: Id)
    requires forall e :: e in log ==> e.gameId != gameId
    ensures EventsOf(log, gameId) == []
  {
    if log != [] {
      assert log[0] in log;
      forall e | e in log[1..]
        ensures e.gameId != gameId
      {
        assert e in log;
      }
      EventsOfNone(log[1..], gameId);
    }
  }

  /** The error the store gives for a game id it does not hold: the driver's
      "no documents" error, classified by battle_error.ParseError. */
  const NotFound: GoError := BattleErrors.ParseErrorMessage(Plain(MsgNoDocuments))

  /** The result of ExplodeSide1/ExplodeSide2 of the newer model: the only
      fields of the game it may change, and whether a ship was hit. */
  datatype ExplodeOutcome = ExplodeOutcome(state: GameState, status: Status, winnerUser: Option<Id>, hasShip: bool)

  /** The board methods of the newer model/game.go, which are not part of this
      model: MoveShipSide*, RevealSlotSide*, ExplodeSide* (the int selects
      the side whose board is acted upon) and FindNeighborIndexes.  Their
      result types restrict them to the board and the win fields. */
  datatype BoardOps = BoardOps(
    moveShip: (GameState, int, int, int) -> Result<GameState>,
    revealSlot: (GameState, int, int) -> (GameState, seq<int>),
    explode: (Game, int, int) -> ExplodeOutcome,
    neighbors: int -> seq<int>)
}
