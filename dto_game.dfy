/** dto/game.go: the requests the HTTP layer hands to the game service, each
    with its ValidateAndUnmask, and GameDto, the view of a game one player
    is shown.  Ids travel masked; validation unmasks them, and the view
    masks them again, with the same MaskId. */
module DtoGame {
  import opened Errors
  import opened Utils
  import opened GameModel
  import DtoErrors

  // ---------------------------------------------------------------- requests

  const MsgBadUserId := "user id is not correct"
  const MsgBadGameId := "game id is not correct"
  const MsgBadShipCount := "ship index size must be 10"

  /** The checks the requests made of a user and a game id share: an empty
      user id is reported before an empty game id. */
  function CheckIds(userId: Id, gameId: Id): (r: Option<GoError>)
    ensures r.None? <==> userId != [] && gameId != []
    ensures userId == [] ==> r == Some(DtoErrors.BadRequest1(MsgBadUserId))
    ensures userId != [] && gameId == [] ==> r == Some(DtoErrors.BadRequest1(MsgBadGameId))
  {
    if userId == [] then Some(DtoErrors.BadRequest1(MsgBadUserId))
    else if gameId == [] then Some(DtoErrors.BadRequest1(MsgBadGameId))
    else None
  }

  class CreateGameRequest {
    var userId: Id
    var moveTimeout: int

    constructor (userId: Id, moveTimeout: int)
      ensures this.userId == userId && this.moveTimeout == moveTimeout
    {
      this.userId := userId;
      this.moveTimeout := moveTimeout;
    }

    /** Only an empty user id is rejected: the timeout test asks for a
        number below 5 and above 30 at once, which none is. */
    method ValidateAndUnmask(rng: Rng) returns (err: Option<GoError>)
      modifies this
      ensures err.Some? <==> old(userId) == []
      ensures err.Some? ==> err.value == DtoErrors.BadRequest1(MsgBadUserId) && userId == old(userId)
      ensures err.None? ==> userId == Masked(old(userId), rng)
      ensures moveTimeout == old(moveTimeout)
    {
      err := None;
      if userId == [] {
        err := Some(DtoErrors.BadRequest1(MsgBadUserId));
      } else {
        if moveTimeout < 5 && moveTimeout > 30 {
          err := Some(DtoErrors.BadRequest1("move timeout is between 5 and 30"));
        }
        if err.None? {
          userId := MaskId(userId, rng);
        }
      }
    }
  }

  /** JoinGameRequest and ChangeTurnRequest: a bare UserGameRequest. */
  class UserGameRequest {
    var userId: Id
    var gameId: Id

    constructor (userId: Id, gameId: Id)
      ensures this.userId == userId && this.gameId == gameId
    {
      this.userId := userId;
      this.gameId := gameId;
    }

    method ValidateAndUnmask(rng: Rng) returns (err: Option<GoError>)
      modifies this
      ensures err == CheckIds(old(userId), old(gameId))
      ensures err.Some? ==> userId == old(userId) && gameId == old(gameId)
      ensures err.None? ==> userId == Masked(old(userId), rng) && gameId == Masked(old(gameId), rng)
    {
      err := CheckIds(userId, gameId);
      if err.None? {
        userId := MaskId(userId, rng);
        gameId := MaskId(gameId, rng);
      }
    }
  }

  class SubmitShipsLocationsRequest {
    var userId: Id
    var gameId: Id
    var shipsIndexes: seq<int>

    constructor (userId: Id, gameId: Id, shipsIndexes: seq<int>)
      ensures this.userId == userId && this.gameId == gameId && this.shipsIndexes == shipsIndexes
    {
      this.userId := userId;
      this.gameId := gameId;
      this.shipsIndexes := shipsIndexes;
    }

    /** The ids are checked first, then the number of indexes, repeated
        ones included. */
    method ValidateAndUnmask(rng: Rng) returns (err: Option<GoError>)
      modifies this
      ensures CheckIds(old(userId), old(gameId)).Some? ==> err == CheckIds(old(userId), old(gameId))
      ensures CheckIds(old(userId), old(gameId)).None? && |shipsIndexes| != 10 ==>
                err == Some(DtoErrors.BadRequest1(MsgBadShipCount))
      ensures err.None? <==> CheckIds(old(userId), old(gameId)).None? && |shipsIndexes| == 10
      ensures err.Some? ==> userId == old(userId) && gameId == old(gameId)
      ensures err.None? ==> userId == Masked(old(userId), rng) && gameId == Masked(old(gameId), rng)
      ensures shipsIndexes == old(shipsIndexes)
    {
      err := CheckIds(userId, gameId);
      if err.None? && |shipsIndexes| != 10 {
        err := Some(DtoErrors.BadRequest1(MsgBadShipCount));
      }
      if err.None? {
        userId := MaskId(userId, rng);
        gameId := MaskId(gameId, rng);
      }
    }
  }

  class MoveShipRequest {
    var userId: Id
    var gameId: Id
    var oldShipIndex: int
    var newShipIndex: int

    constructor (userId: Id, gameId: Id, oldShipIndex: int, newShipIndex: int)
      ensures this.userId == userId && this.gameId == gameId
      ensures this.oldShipIndex == oldShipIndex && this.newShipIndex == newShipIndex
    {
      this.userId := userId;
      this.gameId := gameId;
      this.oldShipIndex := oldShipIndex;
      this.newShipIndex := newShipIndex;
    }

    method ValidateAndUnmask(rng: Rng) returns (err: Option<GoError>)
      modifies this
      ensures err == CheckIds(old(userId), old(gameId))
      ensures err.Some? ==> userId == old(userId) && gameId == old(gameId)
      ensures err.None? ==> userId == Masked(old(userId), rng) && gameId == Masked(old(gameId), rng)
      ensures oldShipIndex == old(oldShipIndex) && newShipIndex == old(newShipIndex)
    {
      err := CheckIds(userId, gameId);
      if err.None? {
        userId := MaskId(userId, rng);
        gameId := MaskId(gameId, rng);
      }
    }
  }

  /** RevealEnemyFieldsRequest and ExplodeRequest: ids and a board index. */
  class IndexRequest {
    var userId: Id
    var gameId: Id
    var index: int

    constructor (userId: Id, gameId: Id, index: int)
      ensures this.userId == userId && this.gameId == gameId && this.index == index
    {
      this.userId := userId;
      this.gameId := gameId;
      this.index := index;
    }

    method ValidateAndUnmask(rng: Rng) returns (err: Option<GoError>)
      modifies this
      ensures err == CheckIds(old(userId), old(gameId))
      ensures err.Some? ==> userId == old(userId) && gameId == old(gameId)
      ensures err.None? ==> userId == Masked(old(userId), rng) && gameId == Masked(old(gameId), rng)
      ensures index == old(index)
    {
      err := CheckIds(userId, gameId);
      if err.None? {
        userId := MaskId(userId, rng);
        gameId := MaskId(gameId, rng);
      }
    }
  }

  // ---------------------------------------------------------------- the view

  datatype DtoGameState = DtoGameState(
    ownGround: map<int, bool>,
    ownShips: map<int, bool>,
    enemyGround: map<int, bool>,
    enemyRevealedShips: map<int, bool>)

  /** GameDto; a status of None is the empty string of a fresh GameDto. */
  datatype GameDto = GameDto(
    id: Id,
    state: Option<DtoGameState>,
    status: Option<Status>,
    userId: Id,
    yourTurn: bool,
    otherSideJoined: bool,
    moveTimeoutSec: int,
    createDate: int,
    winnerUser: Option<Id>)

  /** new(dto.GameDto): every field at its zero value. */
  const EmptyGameDto := GameDto([], None, None, [], false, false, 0, 0, None)

  /** What FromGame leaves in the receiver r: the fields every requester sees,
      then the requester's side, side 1 first.  Fields a branch does not
      assign keep the receiver's values. */
  function View(r: GameDto, game: Game, requester: Id, rng: Rng): GameDto {
    var common := r.(id := Masked(game.id, rng), status := Some(game.status),
                     moveTimeoutSec := game.moveTimeoutSec, createDate := game.createDate,
                     winnerUser := if game.winnerUser.Some? then Some(Masked(game.winnerUser.value, rng)) else r.winnerUser);
    var st := game.state;
    if game.side1User.Some? && requester == game.side1User.value then
      common.(userId := Masked(game.side1User.value, rng), yourTurn := game.turn == 1,
              state := Some(DtoGameState(st.side1Ground, st.side1Ships, st.side2Ground, st.side2RevealedShips)),
              otherSideJoined := game.side2User.Some? || r.otherSideJoined)
    else if game.side2User.Some? && requester == game.side2User.value then
      common.(userId := Masked(game.side2User.value, rng), yourTurn := game.turn == 2,
              state := Some(DtoGameState(st.side2Ground, st.side2Ships, st.side1Ground, st.side1RevealedShips)),
              otherSideJoined := game.side1User.Some? || r.otherSideJoined)
    else common
  }

  /** GameDto.FromGame, assigning the receiver's fields in turn. */
  method FromGame(r: GameDto, game: Game, requesterUserId: Id, rng: Rng) returns (d: GameDto)
    ensures d == View(r, game, requesterUserId, rng)
  {
    d := r;
    var id := MaskId(game.id, rng);
    d := d.(id := id);
    d := d.(status := Some(game.status));
    d := d.(moveTimeoutSec := game.moveTimeoutSec);
    d := d.(createDate := game.createDate);
    if game.winnerUser.Some? {
      var winnerId := MaskId(game.winnerUser.value, rng);
      d := d.(winnerUser := Some(winnerId));
    }
    var st := game.state;
    if game.side1User.Some? && requesterUserId == game.side1User.value {
      var userId := MaskId(game.side1User.value, rng);
      d := d.(userId := userId);
      if game.turn == 1 {
        d := d.(yourTurn := true);
      } else {
        d := d.(yourTurn := false);
      }
      d := d.(state := Some(DtoGameState(st.side1Ground, st.side1Ships, st.side2Ground, st.side2RevealedShips)));
      if game.side2User.Some? {
        d := d.(otherSideJoined := true);
      }
    } else if game.side2User.Some? && requesterUserId == game.side2User.value {
      var userId := MaskId(game.side2User.value, rng);
      d := d.(userId := userId);
      if game.turn == 2 {
        d := d.(yourTurn := true);
      } else {
        d := d.(yourTurn := false);
      }
      d := d.(state := Some(DtoGameState(st.side2Ground, st.side2Ships, st.side1Ground, st.side1RevealedShips)));
      if game.side1User.Some? {
        d := d.(otherSideJoined := true);
      }
    }
  }

  /** Side 1's view: its turn iff Turn is 1, its own ground and ships, the
      enemy's ground and revealed ships, and whether side 2 has joined. */
  lemma ViewSide1(game: Game, rng: Rng)
    requires game.side1User.Some?
    ensures var v := View(EmptyGameDto, game, game.side1User.value, rng);
            var st := game.state;
            v.userId == Masked(game.side1User.value, rng) &&
            (v.yourTurn <==> game.turn == 1) &&
            v.state == Some(DtoGameState(st.side1Ground, st.side1Ships, st.side2Ground, st.side2RevealedShips)) &&
            (v.otherSideJoined <==> game.side2User.Some?)
  {
  }

  /** Side 2's view, for a requester who is not also side 1. */
  lemma ViewSide2(game: Game, rng: Rng)
    requires game.side2User.Some?
    requires game.side1User != game.side2User
    ensures var v := View(EmptyGameDto, game, game.side2User.value, rng);
            var st := game.state;
            v.userId == Masked(game.side2User.value, rng) &&
            (v.yourTurn <==> game.turn == 2) &&
            v.state == Some(DtoGameState(st.side2Ground, st.side2Ships, st.side1Ground, st.side1RevealedShips)) &&
            (v.otherSideJoined <==> game.side1User.Some?)
  {
  }

  /** Anyone else sees the game's public fields only. */
  lemma ViewOutsider(game: Game, requester: Id, rng: Rng)
    requires game.side1User != Some(requester) && game.side2User != Some(requester)
    ensures var v := View(EmptyGameDto, game, requester, rng);
            v.state.None? && v.userId == [] && !v.yourTurn && !v.otherSideJoined &&
            v.id == Masked(game.id, rng) && v.status == Some(game.status) &&
            v.moveTimeoutSec == game.moveTimeoutSec && v.createDate == game.createDate &&
            (v.winnerUser.Some? <==> game.winnerUser.Some?)
  {
  }

  /** The two players of a game see each other's boards from opposite sides,
      and with a turn of 1 or 2 exactly one of them is told it is their turn. */
  lemma ViewsMirror(game: Game, rng: Rng)
    requires game.side1User.Some? && game.side2User.Some? && game.side1User != game.side2User
    ensures var v1 := View(EmptyGameDto, game, game.side1User.value, rng);
            var v2 := View(EmptyGameDto, game, game.side2User.value, rng);
            v1.state.Some? && v2.state.Some? &&
            v1.state.value.ownGround == v2.state.value.enemyGround &&
            v2.state.value.ownGround == v1.state.value.enemyGround &&
            !(v1.yourTurn && v2.yourTurn) &&
            (game.turn in {1, 2} ==> v1.yourTurn != v2.yourTurn)
  {
  }

  /** Masking the view's user id gives back the requester: what the event
      router relies on to find the requester's socket. */
  lemma ViewUserIdUnmasks(game: Game, requester: Id, rng: Rng)
    requires game.side1User == Some(requester) || game.side2User == Some(requester)
    ensures Masked(View(EmptyGameDto, game, requester, rng).userId, rng) == requester
    ensures Masked(View(EmptyGameDto, game, requester, rng).id, rng) == game.id
  {
    MaskedInvolution(requester, rng);
    MaskedInvolution(game.id, rng);
  }

  // ---------------------------------------------------------------- socket events

  /** The payloads of the events sent to the players' sockets.  The event
      DTOs are not part of this model; their fields are as the services fill
      them in.  SocketConnect is what sendConnectEvent forwards. */
  datatype EventPayload =
    | GameConnect(gameId: Id, userId: Id)
    | GameStartEvent(game: GameDto)
    | GameChangeTurnEvent(gameId: Id, userId: Id)
    | ShipMovedEvent(gameId: Id, userId: Id, oldShipIndex: int)
    | RevealEvent(userId: Id, gameId: Id, revealedShips: seq<int>, slots: seq<int>)
    | ExplosionEvent(gameId: Id, userId: Id, index: int)
    | EndGameEvent(gameId: Id, winnerUserId: Id)
    | SocketConnect(gameId: Id, userId: Id)
}
