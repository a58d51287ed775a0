/** cache/cache.go: the registry of connected players the game service and
    the event router share, keyed by the (unmasked) game id. */
module Cache {
  import opened Errors
  import opened Utils
  import opened Sockets
  import DtoErrors

  /** Which user sits on each side and the socket each is connected on. */
  datatype GameData = GameData(side1UserId: Id, side2UserId: Id, side1Socket: Option<Handle>, side2Socket: Option<Handle>)

  const EmptyGameData := GameData([], [], None, None)

  /** GameData.getUser: the side whose user id equals the argument, side 1
      first; otherwise a not-found error naming the id. */
  function GetUser(data: GameData, userId: Id): (r: Result<Id>)
    ensures r.Ok? <==> data.side1UserId == userId || data.side2UserId == userId
    ensures r.Ok? ==> r.value == userId
    ensures r.Err? ==> r.error == DtoErrors.NotFoundError1("cannot find userId " + IdText(userId) + " in GameData")
  {
    if data.side1UserId == userId then Ok(data.side1UserId)
    else if data.side2UserId == userId then Ok(data.side2UserId)
    else Err(DtoErrors.NotFoundError1("cannot find userId " + IdText(userId) + " in GameData"))
  }

  /** A side nobody has registered on holds the empty id, so the empty id is
      always found in an entry with a free side. */
  lemma GetUserEmptySide(data: GameData)
    requires data.side1UserId == [] || data.side2UserId == []
    ensures GetUser(data, []) == Ok([])
  {
  }

  /** cache.GameCache. */
  class GameCache {
    var entries: map<Id, GameData>

    constructor ()
      ensures entries == map[]
    {
      entries := map[];
    }
  }
}
