/** events/connection_event_handler.go: a player's WebSocket connect.  The
    handler registers the connection in cache.GameCache under the game id
    the client sent, on the player's side, and tells the other side, if it
    is connected, that this player has connected. */
module ConnectionEvents {
  import opened Errors
  import opened Utils
  import opened Sockets
  import opened Cache
  import opened OutgoingEvents
  import DtoGame
  import DtoErrors

  const MsgNotMember := "user does not belong to game"

  /** The side user ids of the game the older GetGame returns (pointers in
      Go); that GameDto is not part of this model, only these two fields. */
  datatype GameSides = GameSides(side1UserId: Option<Id>, side2UserId: Option<Id>)

  datatype Side = Side1 | Side2 | Stranger

  /** Side 1 is checked first. */
  function SideOf(sides: GameSides, userId: Id): (s: Side)
    ensures s == Side1 <==> sides.side1UserId == Some(userId)
    ensures s == Side2 <==> sides.side1UserId != Some(userId) && sides.side2UserId == Some(userId)
  {
    if sides.side1UserId.Some? && userId == sides.side1UserId.value then Side1
    else if sides.side2UserId.Some? && userId == sides.side2UserId.value then Side2
    else Stranger
  }

  /** The registry entry, or a fresh empty one when there is none yet. */
  function EntryOf(entries: map<Id, GameData>, key: Id): GameData {
    if key in entries then entries[key] else EmptyGameData
  }

  /** The entry after the player on side has connected on socket. */
  function Connected(data: GameData, side: Side, userId: Id, socket: Option<Handle>): (d: GameData)
    ensures side == Side1 ==> d.side1UserId == userId && d.side1Socket == socket &&
                              d.side2UserId == data.side2UserId && d.side2Socket == data.side2Socket
    ensures side == Side2 ==> d.side2UserId == userId && d.side2Socket == socket &&
                              d.side1UserId == data.side1UserId && d.side1Socket == data.side1Socket
    ensures side == Stranger ==> d == data
  {
    match side
    case Side1 => data.(side1Socket := socket, side1UserId := userId)
    case Side2 => data.(side2Socket := socket, side2UserId := userId)
    case Stranger => data
  }

  /** The connection of the other side, which is told about the connect. */
  function OtherSocket(data: GameData, side: Side): Option<Handle> {
    match side
    case Side1 => data.side2Socket
    case Side2 => data.side1Socket
    case Stranger => None
  }

  /** ConnectionEventHandlerImpl.UserConnect.  The parsed payload is
      (gameId, userId); sidesOf is the older GetGame's answer for gameId. */
  method UserConnect(registry: GameCache, network: Network, gameId: Id, userId: Id, sidesOf: Result<GameSides>, socket: Option<Handle>)
    returns (err: Option<GoError>)
    modifies registry, network
    ensures sidesOf.Err? ==> err == Some(sidesOf.error) && registry.entries == old(registry.entries)
    ensures sidesOf.Ok? && SideOf(sidesOf.value, userId) == Stranger ==>
              err == Some(DtoErrors.BadRequest1(MsgNotMember)) &&
              registry.entries == old(registry.entries)[gameId := EntryOf(old(registry.entries), gameId)]
    ensures sidesOf.Ok? && SideOf(sidesOf.value, userId) != Stranger ==>
              var data := EntryOf(old(registry.entries), gameId);
              var side := SideOf(sidesOf.value, userId);
              err.None? &&
              registry.entries == old(registry.entries)[gameId := Connected(data, side, userId, socket)] &&
              network.outbox == Delivered(old(network.outbox), old(network.closed), OtherSocket(data, side),
                                          Message(Sockets.Connect, DtoGame.SocketConnect(gameId, userId)))
    ensures sidesOf.Err? || SideOf(sidesOf.value, userId) == Stranger ==> network.outbox == old(network.outbox)
    ensures network.closed == old(network.closed)
  {
    if sidesOf.Err? {
      return Some(sidesOf.error);
    }
    if gameId !in registry.entries {
      registry.entries := registry.entries[gameId := EmptyGameData];
    }
    var data := registry.entries[gameId];
    var sides := sidesOf.value;
    var msg := Message(Sockets.Connect, DtoGame.SocketConnect(gameId, userId));
    if sides.side1UserId.Some? && userId == sides.side1UserId.value {
      data := data.(side1Socket := socket, side1UserId := userId);
      SendConnectEvent(network, msg, data.side2Socket);
    } else if sides.side2UserId.Some? && userId == sides.side2UserId.value {
      data := data.(side2Socket := socket, side2UserId := userId);
      SendConnectEvent(network, msg, data.side1Socket);
    } else {
      return Some(DtoErrors.BadRequest1(MsgNotMember));
    }
    registry.entries := registry.entries[gameId := data];
    return None;
  }

  /** sendConnectEvent: nothing for a side that is not connected; a failed
      write is only logged. */
  method SendConnectEvent(network: Network, msg: Message, socket: Option<Handle>)
    modifies network
    ensures network.outbox == Delivered(old(network.outbox), old(network.closed), socket, msg)
    ensures network.closed == old(network.closed)
  {
    if socket.Some? {
      var _ := network.Write(socket, msg);
    }
  }

  /** After a player connects, the events the game service sends them (with
      masked ids) are routed to the new connection: the registry key is the
      id the client sent, which the router recovers by masking once more. */
  lemma ConnectedRoutes(entries: map<Id, GameData>, gameId: Id, userId: Id, side: Side, socket: Option<Handle>, rng: Rng)
    requires side == Side1 || (side == Side2 && EntryOf(entries, gameId).side1UserId != userId)
    ensures var after := entries[gameId := Connected(EntryOf(entries, gameId), side, userId, socket)];
            RouteOf(after, Masked(gameId, rng), Masked(userId, rng), rng) == ToSocket(socket) &&
            GetUser(after[gameId], userId) == Ok(userId)
  {
    var after := entries[gameId := Connected(EntryOf(entries, gameId), side, userId, socket)];
    RouteOfMaskedIds(after, gameId, userId, rng);
  }
}
