/** events/outgoing_events/outgoing_events.go: the router that pushes game
    events to the players' sockets.  The game service hands it masked ids;
    the router masks them once more, which unmasks them, and looks the game
    up in the shared registry under the real id. */
module OutgoingEvents {
  import opened Errors
  import opened Utils
  import opened DtoGame
  import opened Sockets
  import opened Cache
  import DtoErrors

  const MsgNotMember := "user does not belong to game!"

  /** Where an event for (gameId, userId) goes. */
  datatype Route = NoEntry | NotMember | ToSocket(socket: Option<Handle>)

  /** The registry entry under the unmasked game id, then the side whose user
      id is the unmasked target, side 1 first. */
  function RouteOf(entries: map<Id, GameData>, gameId: Id, userId: Id, rng: Rng): (r: Route)
    ensures r.NoEntry? <==> Masked(gameId, rng) !in entries
    ensures r.NotMember? <==> Masked(gameId, rng) in entries && GetUser(entries[Masked(gameId, rng)], Masked(userId, rng)).Err?
    ensures r.ToSocket? ==>
              var data := entries[Masked(gameId, rng)];
              (data.side1UserId == Masked(userId, rng) && r.socket == data.side1Socket) ||
              (data.side1UserId != Masked(userId, rng) && data.side2UserId == Masked(userId, rng) && r.socket == data.side2Socket)
  {
    var key := Masked(gameId, rng);
    if key !in entries then NoEntry
    else
      var data := entries[key];
      var target := Masked(userId, rng);
      if data.side1UserId == target then ToSocket(data.side1Socket)
      else if data.side2UserId == target then ToSocket(data.side2Socket)
      else NotMember
  }

  /** The service sends an event about real ids g and u as MaskId(g) and
      MaskId(u).  The router then finds u's socket in the entry registered
      under g: side 1 first, then side 2, and it refuses anyone else. */
  lemma RouteOfMaskedIds(entries: map<Id, GameData>, g: Id, u: Id, rng: Rng)
    ensures g !in entries ==> RouteOf(entries, Masked(g, rng), Masked(u, rng), rng) == NoEntry
    ensures g in entries && entries[g].side1UserId == u ==>
              RouteOf(entries, Masked(g, rng), Masked(u, rng), rng) == ToSocket(entries[g].side1Socket)
    ensures g in entries && entries[g].side1UserId != u && entries[g].side2UserId == u ==>
              RouteOf(entries, Masked(g, rng), Masked(u, rng), rng) == ToSocket(entries[g].side2Socket)
    ensures g in entries && entries[g].side1UserId != u && entries[g].side2UserId != u ==>
              RouteOf(entries, Masked(g, rng), Masked(u, rng), rng) == NotMember
  {
    MaskedInvolution(g, rng);
    MaskedInvolution(u, rng);
  }

  /** A panic unwinds through a handler that otherwise only logs the error. */
  function PanicOnly(err: Option<GoError>): (r: Option<GoError>)
    ensures r.Some? <==> err.Some? && err.value.Panic?
    ensures r.Some? ==> r == err
  {
    if err.Some? && err.value.Panic? then err else None
  }

  /** What a single-recipient handler returns and leaves in the outboxes:
      nothing without a registry entry, Forbidden for a stranger, otherwise
      the write, whose error is returned by GameConnect, GameStart and
      ChangeTurn (report) and only logged by the others. */
  function Dispatch(route: Route, closed: set<Handle>, outbox: map<Handle, seq<Message>>, msg: Message, report: bool)
    : (Option<GoError>, map<Handle, seq<Message>>)
  {
    match route
    case NoEntry => (None, outbox)
    case NotMember => (Some(DtoErrors.Forbidden1(MsgNotMember)), outbox)
    case ToSocket(socket) =>
      var err := WriteError(closed, socket);
      (if report then err else PanicOnly(err), Delivered(outbox, closed, socket, msg))
  }

  /** A handler writes to the routed socket and nowhere else; it fails only
      for a stranger, a nil socket (a panic) or, when it reports write
      errors, a closed socket. */
  lemma DispatchEffect(route: Route, closed: set<Handle>, outbox: map<Handle, seq<Message>>, msg: Message, report: bool)
    ensures forall h: Handle :: route != ToSocket(Some(h)) ==> Sent(Dispatch(route, closed, outbox, msg, report).1, h) == Sent(outbox, h)
    ensures route.ToSocket? && route.socket.Some? && route.socket.value !in closed ==>
              Dispatch(route, closed, outbox, msg, report) == (None, outbox[route.socket.value := Sent(outbox, route.socket.value) + [msg]])
    ensures Dispatch(route, closed, outbox, msg, report).0 == Some(NilDeref) <==> route == ToSocket(None)
    ensures Dispatch(route, closed, outbox, msg, report).0.None? <==>
              route.NoEntry? || (route.ToSocket? && route.socket.Some? && (!report || route.socket.value !in closed))
  {
    if route.ToSocket? {
      DeliveredEffect(outbox, closed, route.socket, msg);
    }
  }

  /** EndGame: both sides' sockets, side 1 first, without any membership
      check; write errors are only logged, but a nil socket panics, and a
      panic on side 1 stops before side 2. */
  function EndGameDispatch(entries: map<Id, GameData>, key: Id, closed: set<Handle>, outbox: map<Handle, seq<Message>>, msg: Message)
    : (Option<GoError>, map<Handle, seq<Message>>)
  {
    if key !in entries then (None, outbox)
    else
      var data := entries[key];
      var e1 := WriteError(closed, data.side1Socket);
      if e1 == Some(NilDeref) then (e1, outbox)
      else
        var o1 := Delivered(outbox, closed, data.side1Socket, msg);
        (PanicOnly(WriteError(closed, data.side2Socket)), Delivered(o1, closed, data.side2Socket, msg))
  }

  /** With two distinct open sockets both players receive the end of the
      game; with a side that never connected the handler panics. */
  lemma EndGameReachesBoth(entries: map<Id, GameData>, key: Id, closed: set<Handle>, outbox: map<Handle, seq<Message>>, msg: Message)
    requires key in entries
    ensures var d := entries[key];
            d.side1Socket.Some? && d.side2Socket.Some? && d.side1Socket != d.side2Socket &&
            d.side1Socket.value !in closed && d.side2Socket.value !in closed ==>
              var r := EndGameDispatch(entries, key, closed, outbox, msg);
              r.0.None? &&
              Sent(r.1, d.side1Socket.value) == Sent(outbox, d.side1Socket.value) + [msg] &&
              Sent(r.1, d.side2Socket.value) == Sent(outbox, d.side2Socket.value) + [msg]
    ensures EndGameDispatch(entries, key, closed, outbox, msg).0 == Some(NilDeref) <==>
              entries[key].side1Socket.None? || entries[key].side2Socket.None?
  {
    var d := entries[key];
    if d.side1Socket.Some? && d.side2Socket.Some? && d.side1Socket.value !in closed {
      var o1 := Delivered(outbox, closed, d.side1Socket, msg);
      DeliveredEffect(outbox, closed, d.side1Socket, msg);
      DeliveredEffect(o1, closed, d.side2Socket, msg);
    }
  }

  /** OutgoingEventHandlerImpl, with cache.GameCache and the connections it
      writes to made explicit, and the MaskId generator it shares with the
      service. */
  class OutgoingEventHandler {
    const registry: GameCache
    const network: Network
    const rng: Rng

    constructor (registry: GameCache, network: Network, rng: Rng)
      ensures this.registry == registry && this.network == network && this.rng == rng
    {
      this.registry := registry;
      this.network := network;
      this.rng := rng;
    }

    /** Lines shared by the six single-recipient handlers. */
    method Deliver(gameId: Id, userId: Id, msg: Message, report: bool) returns (err: Option<GoError>)
      modifies network
      ensures (err, network.outbox) == Dispatch(RouteOf(registry.entries, gameId, userId, rng), old(network.closed), old(network.outbox), msg, report)
      ensures network.closed == old(network.closed)
    {
      var key := MaskId(gameId, rng);
      if key !in registry.entries {
        return None;
      }
      var data := registry.entries[key];
      var target := MaskId(userId, rng);
      var socket: Option<Handle>;
      if data.side1UserId == target {
        socket := data.side1Socket;
      } else if data.side2UserId == target {
        socket := data.side2Socket;
      } else {
        return Some(DtoErrors.Forbidden1(MsgNotMember));
      }
      err := network.Write(socket, msg);
      if !report {
        err := PanicOnly(err);
      }
    }

    method GameConnect(gameId: Id, userId: Id) returns (err: Option<GoError>)
      modifies network
      ensures (err, network.outbox) == Dispatch(RouteOf(registry.entries, gameId, userId, rng), old(network.closed), old(network.outbox),
                                                Message(Sockets.Connect, DtoGame.GameConnect(gameId, userId)), true)
      ensures network.closed == old(network.closed)
    {
      err := Deliver(gameId, userId, Message(Sockets.Connect, DtoGame.GameConnect(gameId, userId)), true);
    }

    /** Routed by the game DTO's own (masked) id and user id. */
    method GameStart(game: GameDto) returns (err: Option<GoError>)
      modifies network
      ensures (err, network.outbox) == Dispatch(RouteOf(registry.entries, game.id, game.userId, rng), old(network.closed), old(network.outbox),
                                                Message(Sockets.GameStart, DtoGame.GameStartEvent(game)), true)
      ensures network.closed == old(network.closed)
    {
      err := Deliver(game.id, game.userId, Message(Sockets.GameStart, DtoGame.GameStartEvent(game)), true);
    }

    method ChangeTurn(gameId: Id, userId: Id) returns (err: Option<GoError>)
      modifies network
      ensures (err, network.outbox) == Dispatch(RouteOf(registry.entries, gameId, userId, rng), old(network.closed), old(network.outbox),
                                                Message(Sockets.ChangeTurn, DtoGame.GameChangeTurnEvent(gameId, userId)), true)
      ensures network.closed == old(network.closed)
    {
      err := Deliver(gameId, userId, Message(Sockets.ChangeTurn, DtoGame.GameChangeTurnEvent(gameId, userId)), true);
    }

    method MoveShip(gameId: Id, userId: Id, oldShipIndex: int) returns (err: Option<GoError>)
      modifies network
      ensures (err, network.outbox) == Dispatch(RouteOf(registry.entries, gameId, userId, rng), old(network.closed), old(network.outbox),
                                                Message(Sockets.ShipMoved, DtoGame.ShipMovedEvent(gameId, userId, oldShipIndex)), false)
      ensures network.closed == old(network.closed)
    {
      err := Deliver(gameId, userId, Message(Sockets.ShipMoved, DtoGame.ShipMovedEvent(gameId, userId, oldShipIndex)), false);
    }

    method Reveal(userId: Id, gameId: Id, revealedShips: seq<int>, slots: seq<int>) returns (err: Option<GoError>)
      modifies network
      ensures (err, network.outbox) == Dispatch(RouteOf(registry.entries, gameId, userId, rng), old(network.closed), old(network.outbox),
                                                Message(Sockets.Reveal, DtoGame.RevealEvent(userId, gameId, revealedShips, slots)), false)
      ensures network.closed == old(network.closed)
    {
      err := Deliver(gameId, userId, Message(Sockets.Reveal, DtoGame.RevealEvent(userId, gameId, revealedShips, slots)), false);
    }

    method Explosion(gameId: Id, userId: Id, index: int) returns (err: Option<GoError>)
      modifies network
      ensures (err, network.outbox) == Dispatch(RouteOf(registry.entries, gameId, userId, rng), old(network.closed), old(network.outbox),
                                                Message(Sockets.Explosion, DtoGame.ExplosionEvent(gameId, userId, index)), false)
      ensures network.closed == old(network.closed)
    {
      err := Deliver(gameId, userId, Message(Sockets.Explosion, DtoGame.ExplosionEvent(gameId, userId, index)), false);
    }

    method EndGame(gameId: Id, winnerUserId: Id) returns (err: Option<GoError>)
      modifies network
      ensures (err, network.outbox) == EndGameDispatch(registry.entries, Masked(gameId, rng), old(network.closed), old(network.outbox),
                                                       Message(Sockets.EndGame, DtoGame.EndGameEvent(gameId, winnerUserId)))
      ensures network.closed == old(network.closed)
    {
      var key := MaskId(gameId, rng);
      if key !in registry.entries {
        return None;
      }
      var data := registry.entries[key];
      var msg := Message(Sockets.EndGame, DtoGame.EndGameEvent(gameId, winnerUserId));
      err := network.Write(data.side1Socket, msg);
      if err == Some(NilDeref) {
        return err;
      }
      err := network.Write(data.side2Socket, msg);
      err := PanicOnly(err);
    }
  }
}
