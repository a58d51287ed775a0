/** service/game.go: the older game service, over the older model.Game
    (Side1/Side2 pointers, no Joined status).  Its GetGame hands the game to
    an older GameDto that is not part of this model, so GetGame here answers
    with the stored game itself. */
module LegacyService {
  import opened Errors
  import opened Utils
  import Board
  import GameModel
  import BattleErrors

  /** The move timeout every game of this service gets. */
  const LegacyMoveTimeoutSec := 10

  const MsgNotInit := "Game state is not Init"

  /** CreateGame, lines 39-45: side 1 is the creator, the status Init and the
      first turn random; everything else keeps Go's zero value (nil maps, no
      last move time, no side 2, no winner). */
  function NewLegacyGame(gameId: Id, userId: Id, now: int, coin: nat): (g: Board.Game)
    ensures g.id == gameId && g.side1 == Some(userId) && g.side2.None? && g.winner.None?
    ensures g.status == Board.Init && g.moveTimeoutSec == LegacyMoveTimeoutSec && g.createDate == now
    ensures g.turn == 1 || g.turn == 2
    ensures g.state == Board.GameState(null, null, null, null) && g.lastMoveTime.None?
  {
    Board.Game(gameId, Board.GameState(null, null, null, null), Board.Init, Some(userId), None,
               (coin % 2) as int + 1, None, LegacyMoveTimeoutSec, now, None)
  }

  /** JoinGame's decision, lines 76-84: the game to store, or None when
      nothing is to be stored (side 1's own user joining). */
  function LegacyJoin(game: Board.Game, userId: Id): (r: Result<Option<Board.Game>>)
    ensures game.status != Board.Init ==> r == Err(BattleErrors.BadRequest2(MsgNotInit, InvalidGameStatus))
    ensures game.status == Board.Init && game.side1.None? ==> r == Err(NilDeref)
    ensures r.Ok? ==> game.status == Board.Init && game.side1.Some?
    ensures r.Ok? && r.value.Some? <==> game.status == Board.Init && game.side1.Some? && game.side1.value != userId
    ensures r.Ok? && r.value.Some? ==> r.value.value == game.(side2 := Some(userId))
  {
    if game.status != Board.Init then Err(BattleErrors.BadRequest2(MsgNotInit, InvalidGameStatus))
    else if game.side1.None? then Err(NilDeref)
    else if userId != game.side1.value then Ok(Some(game.(side2 := Some(userId))))
    else Ok(None)
  }

  /** Joining leaves the older game in Init, so any later user other than
      the creator joins again and replaces side 2. */
  lemma LegacyJoinReplacesSide2(game: Board.Game, first: Id, second: Id)
    requires game.status == Board.Init && game.side1.Some?
    requires first != game.side1.value && second != game.side1.value
    ensures LegacyJoin(game, first).Ok? && LegacyJoin(game, first).value.Some?
    ensures var joined := LegacyJoin(game, first).value.value;
            joined.status == Board.Init && joined.side2 == Some(first) &&
            LegacyJoin(joined, second) == Ok(Some(game.(side2 := Some(second))))
  {
  }

  /** GameServiceImpl of service/game.go over an in-memory store. */
  class LegacyGameService {
    var games: map<Id, Board.Game>
    const users: set<Id>

    constructor (users: set<Id>)
      ensures this.users == users && games == map[]
    {
      this.users := users;
      games := map[];
    }

    /** GetGame, lines 49-58, up to the older GameDto. */
    function GetGame(gameId: Id): (r: Result<Board.Game>)
      reads this
      ensures r.Ok? <==> gameId in games
      ensures r.Ok? ==> r.value == games[gameId]
      ensures r.Err? ==> r.error == GameModel.NotFound
    {
      if gameId in games then Ok(games[gameId]) else Err(GameModel.NotFound)
    }

    /** CreateGame, lines 31-47: gameId is the id the store assigns, one it
        does not hold yet; the answer is that id. */
    method CreateGame(userId: Id, now: int, coin: nat, gameId: Id) returns (res: Result<Id>)
      requires gameId !in games
      modifies this
      ensures userId !in users ==> res == Err(GameModel.NotFound) && games == old(games)
      ensures userId in users ==> res == Ok(gameId) && games == old(games)[gameId := NewLegacyGame(gameId, userId, now, coin)]
    {
      if userId !in users {
        return Err(GameModel.NotFound);
      }
      var game := NewLegacyGame(gameId, userId, now, coin);
      games := games[gameId := game];
      return Ok(gameId);
    }

    /** JoinGame, lines 60-91: updateErr is the store's answer to Update,
        which is returned as the error; the older JoinGameResponse is not
        part of this model. */
    method JoinGame(userId: Id, gameId: Id, updateErr: Option<GoError>) returns (err: Option<GoError>)
      modifies this
      ensures userId !in users || gameId !in old(games) ==> err == Some(GameModel.NotFound) && games == old(games)
      ensures userId in users && gameId in old(games) ==>
                var j := LegacyJoin(old(games)[gameId], userId);
                (j.Err? ==> err == Some(j.error) && games == old(games)) &&
                (j.Ok? && j.value.None? ==> err.None? && games == old(games)) &&
                (j.Ok? && j.value.Some? ==>
                   err == updateErr &&
                   games == (if updateErr.None? then old(games)[j.value.value.id := j.value.value] else old(games)))
    {
      if userId !in users || gameId !in games {
        return Some(GameModel.NotFound);
      }
      var game := games[gameId];
      var j := LegacyJoin(game, userId);
      if j.Err? {
        return Some(j.error);
      }
      if j.value.Some? {
        game := j.value.value;
        if updateErr.None? {
          games := games[game.id := game];
        }
        return updateErr;
      }
      return None;
    }
  }
}
