/** socket/event_handler.go: handleEvents, the socket package's own connect
    handler, over its own registry (socket/cache.go).  As written it edits a
    copy of the registry entry and never stores it back, so the registry only
    ever holds empty entries, and a player's second connect closes a nil
    connection.  HandleEvents models the code as written; HandleEventsStored
    is the evidently intended handler. */
module SocketEvents {
  import opened Errors
  import opened Utils
  import opened Sockets
  import opened SocketCache
  import ConnectionEvents
  import BattleErrors

  /** dto.Connect, the first SocketEventType. */
  const ConnectType := 1

  const MsgNotMember := "user does not belong to game"

  /** What a connect does to the registry, which connection it closes (the
      previous one on the player's side, possibly nil) and the error it
      returns apart from a panic of that close. */
  datatype Handled = Handled(entries: map<Id, GameData>, closes: Option<Option<Handle>>, err: Option<GoError>)

  /** The connection registered on side. */
  function SocketOf(data: GameData, side: ConnectionEvents.Side): Option<Handle> {
    match side
    case Side1 => data.side1Socket
    case Side2 => data.side2Socket
    case Stranger => None
  }

  function Connected(data: GameData, side: ConnectionEvents.Side, userId: Id, socket: Option<Handle>): (d: GameData)
    ensures side == ConnectionEvents.Side1 ==> d == data.(side1Socket := socket, side1UserId := userId)
    ensures side == ConnectionEvents.Side2 ==> d == data.(side2Socket := socket, side2UserId := userId)
    ensures side == ConnectionEvents.Stranger ==> d == data
  {
    match side
    case Side1 => data.(side1Socket := socket, side1UserId := userId)
    case Side2 => data.(side2Socket := socket, side2UserId := userId)
    case Stranger => data
  }

  /** handleEvents as written: a missing entry is created empty; the edited
      copy is dropped; an existing entry's old connection on the player's side
      is closed first. */
  function HandleOutcome(entries: map<Id, GameData>, eventType: int, gameId: Id, userId: Id,
                         sidesOf: Result<ConnectionEvents.GameSides>): (h: Handled)
    ensures h.entries == entries || (gameId !in entries && h.entries == entries[gameId := EmptyGameData])
    ensures h.closes.Some? ==> gameId in entries && sidesOf.Ok? && h.closes.value == SocketOf(entries[gameId], ConnectionEvents.SideOf(sidesOf.value, userId))
    ensures eventType != ConnectType ==> h == Handled(entries, None, None)
    ensures eventType == ConnectType && sidesOf.Err? ==> h == Handled(entries, None, Some(sidesOf.error))
    ensures eventType == ConnectType && sidesOf.Ok? ==>
              var side := ConnectionEvents.SideOf(sidesOf.value, userId);
              (side == ConnectionEvents.Stranger ==> h.err == Some(BattleErrors.BadRequest1(MsgNotMember)) && h.closes.None?) &&
              (side != ConnectionEvents.Stranger ==> h.err.None?) &&
              (gameId !in entries ==> h.entries == entries[gameId := EmptyGameData] && h.closes.None?) &&
              (gameId in entries ==> h.entries == entries) &&
              (gameId in entries && side != ConnectionEvents.Stranger ==> h.closes == Some(SocketOf(entries[gameId], side)))
  {
    if eventType != ConnectType then Handled(entries, None, None)
    else if sidesOf.Err? then Handled(entries, None, Some(sidesOf.error))
    else
      var side := ConnectionEvents.SideOf(sidesOf.value, userId);
      var err := if side == ConnectionEvents.Stranger then Some(BattleErrors.BadRequest1(MsgNotMember)) else None;
      if gameId !in entries then Handled(entries[gameId := EmptyGameData], None, err)
      else Handled(entries, if side == ConnectionEvents.Stranger then None else Some(SocketOf(entries[gameId], side)), err)
  }

  /** The panic of closing a nil connection overrides the error otherwise
      returned. */
  function Returned(h: Handled): Option<GoError> {
    if h.closes == Some(None) then Some(NilDeref) else h.err
  }

  /** handleEvents.  The parsed payload is (gameId, userId); sidesOf is the
      older GetGame's answer for gameId. */
  method HandleEvents(registry: GameCache, network: Network, eventType: int, gameId: Id, userId: Id,
                      sidesOf: Result<ConnectionEvents.GameSides>, socket: Option<Handle>) returns (err: Option<GoError>)
    modifies registry, network
    ensures var h := HandleOutcome(old(registry.entries), eventType, gameId, userId, sidesOf);
            registry.entries == h.entries && err == Returned(h) &&
            network.closed == (if h.closes.Some? && h.closes.value.Some? then old(network.closed) + {h.closes.value.value} else old(network.closed))
    ensures network.outbox == old(network.outbox)
  {
    if eventType != ConnectType {
      return None;
    }
    if sidesOf.Err? {
      return Some(sidesOf.error);
    }
    var sides := sidesOf.value;
    if gameId !in registry.entries {
      registry.entries := registry.entries[gameId := EmptyGameData];
      var data := registry.entries[gameId];
      if sides.side1UserId.Some? && userId == sides.side1UserId.value {
        data := data.(side1Socket := socket, side1UserId := userId);
      } else if sides.side2UserId.Some? && userId == sides.side2UserId.value {
        data := data.(side2Socket := socket, side2UserId := userId);
      } else {
        return Some(BattleErrors.BadRequest1(MsgNotMember));
      }
    } else {
      var data := registry.entries[gameId];
      if sides.side1UserId.Some? && userId == sides.side1UserId.value {
        var closeErr := network.Close(data.side1Socket);
        if closeErr == Some(NilDeref) {
          return closeErr;
        }
        data := data.(side1Socket := socket, side1UserId := userId);
      } else if sides.side2UserId.Some? && userId == sides.side2UserId.value {
        var closeErr := network.Close(data.side2Socket);
        if closeErr == Some(NilDeref) {
          return closeErr;
        }
        data := data.(side2Socket := socket, side2UserId := userId);
      } else {
        return Some(BattleErrors.BadRequest1(MsgNotMember));
      }
    }
    return None;
  }

  ghost predicate AllEmpty(entries: map<Id, GameData>) {
    forall k :: k in entries ==> entries[k] == EmptyGameData
  }

  /** As written, the registry never holds a connection: starting from the
      empty registry, every entry stays empty whatever events arrive. */
  lemma RegistryStaysEmpty(entries: map<Id, GameData>, eventType: int, gameId: Id, userId: Id,
                           sidesOf: Result<ConnectionEvents.GameSides>)
    requires AllEmpty(entries)
    ensures AllEmpty(HandleOutcome(entries, eventType, gameId, userId, sidesOf).entries)
  {
  }

  /** As written, a player's second connect to a game panics: the first one
      created the entry but stored no connection, so the second closes a
      nil connection. */
  lemma SecondConnectPanics(gameId: Id, userId: Id, sides: ConnectionEvents.GameSides)
    requires ConnectionEvents.SideOf(sides, userId) != ConnectionEvents.Stranger
    ensures var first := HandleOutcome(map[], ConnectType, gameId, userId, Ok(sides));
            first.err.None? &&
            Returned(HandleOutcome(first.entries, ConnectType, gameId, userId, Ok(sides))) == Some(NilDeref)
  {
    var first := HandleOutcome(map[], ConnectType, gameId, userId, Ok(sides));
    assert first.entries == map[gameId := EmptyGameData];
  }

  /** The evidently intended handler: the edited entry is stored, and a
      previous connection on the player's side, if any, is closed. */
  function HandleOutcomeStored(entries: map<Id, GameData>, eventType: int, gameId: Id, userId: Id,
                               sidesOf: Result<ConnectionEvents.GameSides>, socket: Option<Handle>): (h: Handled)
    ensures h.closes != Some(None)
  {
    if eventType != ConnectType then Handled(entries, None, None)
    else if sidesOf.Err? then Handled(entries, None, Some(sidesOf.error))
    else
      var side := ConnectionEvents.SideOf(sidesOf.value, userId);
      var data := if gameId in entries then entries[gameId] else EmptyGameData;
      if side == ConnectionEvents.Stranger then
        Handled(entries[gameId := data], None, Some(BattleErrors.BadRequest1(MsgNotMember)))
      else
        var previous := SocketOf(data, side);
        Handled(entries[gameId := Connected(data, side, userId, socket)], if previous.Some? then Some(previous) else None, None)
  }

  /** With the entry stored, a player's connect registers their connection
      where GetUser finds them, and a reconnect closes the first connection
      and registers the second, without a panic. */
  lemma StoredReconnectReplaces(gameId: Id, userId: Id, sides: ConnectionEvents.GameSides, s1: Handle, s2: Handle)
    requires ConnectionEvents.SideOf(sides, userId) != ConnectionEvents.Stranger
    ensures var first := HandleOutcomeStored(map[], ConnectType, gameId, userId, Ok(sides), Some(s1));
            var second := HandleOutcomeStored(first.entries, ConnectType, gameId, userId, Ok(sides), Some(s2));
            var side := ConnectionEvents.SideOf(sides, userId);
            first.err.None? && GetUser(first.entries[gameId], userId) == Ok(userId) &&
            SocketOf(first.entries[gameId], side) == Some(s1) &&
            second.err.None? && Returned(second).None? && second.closes == Some(Some(s1)) &&
            SocketOf(second.entries[gameId], side) == Some(s2)
  {
  }

  /** The stored handler changes no other game's entry. */
  lemma StoredKeepsOtherGames(entries: map<Id, GameData>, eventType: int, gameId: Id, userId: Id,
                              sidesOf: Result<ConnectionEvents.GameSides>, socket: Option<Handle>, other: Id)
    requires other != gameId
    ensures var h := HandleOutcomeStored(entries, eventType, gameId, userId, sidesOf, socket);
            (other in h.entries <==> other in entries) && (other in entries ==> h.entries[other] == entries[other])
  {
  }

  /** handleEvents with the entry stored back. */
  method HandleEventsStored(registry: GameCache, network: Network, eventType: int, gameId: Id, userId: Id,
                            sidesOf: Result<ConnectionEvents.GameSides>, socket: Option<Handle>) returns (err: Option<GoError>)
    modifies registry, network
    ensures var h := HandleOutcomeStored(old(registry.entries), eventType, gameId, userId, sidesOf, socket);
            registry.entries == h.entries && err == h.err &&
            network.closed == (if h.closes.Some? then old(network.closed) + {h.closes.value.value} else old(network.closed))
    ensures network.outbox == old(network.outbox)
  {
    if eventType != ConnectType {
      return None;
    }
    if sidesOf.Err? {
      return Some(sidesOf.error);
    }
    var sides := sidesOf.value;
    if gameId !in registry.entries {
      registry.entries := registry.entries[gameId := EmptyGameData];
    }
    var data := registry.entries[gameId];
    if sides.side1UserId.Some? && userId == sides.side1UserId.value {
      if data.side1Socket.Some? {
        var _ := network.Close(data.side1Socket);
      }
      data := data.(side1Socket := socket, side1UserId := userId);
    } else if sides.side2UserId.Some? && userId == sides.side2UserId.value {
      if data.side2Socket.Some? {
        var _ := network.Close(data.side2Socket);
      }
      data := data.(side2Socket := socket, side2UserId := userId);
    } else {
      return Some(BattleErrors.BadRequest1(MsgNotMember));
    }
    registry.entries := registry.entries[gameId := data];
    return None;
  }
}
