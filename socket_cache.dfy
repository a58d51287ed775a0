/** socket/cache.go: the socket package's own registry, which only
    socket/event_handler.go touches. */
module SocketCache {
  import opened Errors
  import opened Utils
  import opened Sockets
  import BattleErrors

  datatype GameData = GameData(side1UserId: Id, side2UserId: Id, side1Socket: Option<Handle>, side2Socket: Option<Handle>)

  const EmptyGameData := GameData([], [], None, None)

  /** GameData.getUser, reporting with the battle_error package. */
  function GetUser(data: GameData, userId: Id): (r: Result<Id>)
    ensures r.Ok? <==> data.side1UserId == userId || data.side2UserId == userId
    ensures r.Ok? ==> r.value == userId
    ensures r.Err? ==> r.error == BattleErrors.NotFoundError1("cannot find userId " + IdText(userId) + " in GameData")
  {
    if data.side1UserId == userId then Ok(data.side1UserId)
    else if data.side2UserId == userId then Ok(data.side2UserId)
    else Err(BattleErrors.NotFoundError1("cannot find userId " + IdText(userId) + " in GameData"))
  }

  /** In an entry nobody has registered on, only the empty id is found. */
  lemma GetUserOfEmpty(userId: Id)
    ensures GetUser(EmptyGameData, userId).Ok? <==> userId == []
  {
  }

  class GameCache {
    var entries: map<Id, GameData>

    constructor ()
      ensures entries == map[]
    {
      entries := map[];
    }
  }
}
