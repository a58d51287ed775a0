/** service/game_service.go: the newer game service.  Each operation is a
    pure decision on the stored games and events (this module's functions),
    then the writes to the store, the event log and the players' sockets
    (GameServiceImpl's methods).  The store is a map from game id to game;
    the event log is newest first, which is the order FindMany returns. */
module GameService {
  import opened Errors
  import opened Utils
  import opened GameModel
  import opened DtoGame
  import opened Sockets
  import opened Cache
  import opened OutgoingEvents
  import ConnectionEvents
  import DtoErrors

  const Cells := 100
  const ShipCount := 10
  /** The arbiter treats a game whose last move is over a minute old as over. */
  const ArbiterWindowSec := 60
  /** The slack ChangeTurn adds to the move timeout before it lets the waiting
      side take the turn. */
  const ForfeitGraceSec := 2

  const MsgSide1Missing := "user wants to join but other side has not joint"
  const MsgNotJoinable := "game status is not suitable for joining"
  const MsgStatusInvalid := "Game status is not valid"
  const MsgIndexRange := "ship indexes must be between 1 and 100"
  const MsgRepeatedIndex := "repeated index is not allowed in ship indexes"
  const MsgAlreadyChosen := "user already has chosen his/her ships location"
  const MsgNotInGame := "user is not belong to this game"
  const MsgNotStarted := "game is not started"
  const MsgFinished := "game is finished"
  const MsgNotMember := "user does not belong to this game"
  const MsgNoAccess := "cannot perform the operation"
  const MsgSocketStranger := "user does not belong to game"

  /** Reading gameEvents[4] of a four-element slice. */
  const IndexOutOfRange := Panic("index out of range [4] with length 4")

  function Lookup(games: map<Id, Game>, gameId: Id): Result<Game> {
    if gameId in games then Ok(games[gameId]) else Err(NotFound)
  }

  // ---------------------------------------------------------------- records

  function MoveRecord(gameId: Id, userId: Id, from: int, to: int, time: int): GameEvent {
    GameEvent(MoveShip, gameId, Some(userId), time, [], Some(from), Some(to), [], [], None, None)
  }

  function RevealRecord(gameId: Id, userId: Id, slots: seq<int>, revealed: seq<int>, time: int): GameEvent {
    GameEvent(EventType.Reveal, gameId, Some(userId), time, [], None, None, slots, revealed, None, None)
  }

  /** PersistExplosionEvent: an Explosion for a hit, an EmptyExplosion for a miss. */
  function ExplosionRecord(gameId: Id, userId: Id, index: int, empty: bool, time: int): GameEvent {
    if empty then GameEvent(EmptyExplosion, gameId, Some(userId), time, [], None, None, [], [], None, Some(index))
    else GameEvent(EventType.Explosion, gameId, Some(userId), time, [], None, None, [], [], Some(index), None)
  }

  /** persistInitialShipLocationEvent as written: the game id goes into the
      event's UserId and the user id into its GameId. */
  function InitialShipsRecord(gameId: Id, userId: Id, locations: seq<int>, time: int): GameEvent {
    GameEvent(InitialShipsLocations, userId, Some(gameId), time, locations, None, None, [], [], None, None)
  }

  /** Because of that swap, a game's own event list (FindMany on its id)
      never shows its initial ship locations. */
  lemma InitialShipsMisfiled(gameId: Id, userId: Id, locations: seq<int>, time: int, log: seq<GameEvent>)
    requires userId != gameId
    ensures EventsOf([InitialShipsRecord(gameId, userId, locations, time)] + log, gameId) == EventsOf(log, gameId)
    ensures EventsOf([InitialShipsRecord(gameId, userId, locations, time)] + log, userId) ==
              [InitialShipsRecord(gameId, userId, locations, time)] + EventsOf(log, userId)
  {
    EventsOfInsert(InitialShipsRecord(gameId, userId, locations, time), log, gameId);
    EventsOfInsert(InitialShipsRecord(gameId, userId, locations, time), log, userId);
  }

  // ---------------------------------------------------------------- CreateGame

  /** A ground of the 100 cells, each of them true. */
  ghost predicate FullGround(m: map<int, bool>) {
    (forall k :: k in m <==> 0 <= k < Cells) && (forall k :: k in m ==> m[k])
  }

  /** Lines 59-62: the fields map. */
  method BuildGround() returns (fields: map<int, bool>)
    ensures FullGround(fields)
    ensures |fields| == Cells
  {
    fields := map[];
    var i := 0;
    while i < Cells
      invariant 0 <= i <= Cells
      invariant forall k :: k in fields <==> 0 <= k < i
      invariant forall k :: k in fields ==> fields[k]
      invariant |fields| == i
    {
      fields := fields[i := true];
      i := i + 1;
    }
  }

  // ---------------------------------------------------------------- JoinGame

  /** JoinGame's decision on the stored game (lines 152-185): a new user
      takes side 2 and the game becomes Joined; side 1's own user leaves it
      as it is. */
  function JoinOutcome(game: Game, userId: Id): (r: Result<Game>)
    ensures r.Ok? <==> game.status == Init && game.side1User.Some? && !IsZero(game.side1User.value)
    ensures game.status != Init ==> r == Err(DtoErrors.BadRequest2(MsgNotJoinable, InvalidGameStatus))
    ensures game.status == Init && !r.Ok? ==> r == Err(DtoErrors.BadRequest2(MsgSide1Missing, InvalidGameStatus))
  {
    if game.status != Init then Err(DtoErrors.BadRequest2(MsgNotJoinable, InvalidGameStatus))
    else if game.side1User.None? || IsZero(game.side1User.value) then Err(DtoErrors.BadRequest2(MsgSide1Missing, InvalidGameStatus))
    else if game.side1User.value != userId then Ok(game.(side2User := Some(userId), status := Joined))
    else Ok(game)
  }

  /** A game admits exactly one opponent: the first other user to join takes
      side 2, after which nobody (that user included) can join again; the
      creator joining changes nothing. */
  lemma JoinAdmitsOneOpponent(game: Game, opponent: Id, later: Id)
    requires game.status == Init && game.side1User.Some? && !IsZero(game.side1User.value)
    requires opponent != game.side1User.value
    ensures JoinOutcome(game, game.side1User.value) == Ok(game)
    ensures JoinOutcome(game, opponent).Ok?
    ensures var joined := JoinOutcome(game, opponent).value;
            joined.side2User == Some(opponent) && joined.status == Joined &&
            joined.side1User == game.side1User && joined.state == game.state && joined.turn == game.turn &&
            JoinOutcome(joined, later) == Err(DtoErrors.BadRequest2(MsgNotJoinable, InvalidGameStatus))
  {
  }

  // ---------------------------------------------------------------- SubmitShipsLocations

  /** The distinct cells of a list, each mapped to true. */
  function KeysOf(s: seq<int>): (m: map<int, bool>)
    ensures forall k :: k in m <==> k in s
    ensures forall k :: k in m ==> m[k]
  {
    if s == [] then map[]
    else
      var init := s[..|s| - 1];
      assert s == init + [s[|s| - 1]];
      KeysOf(init)[s[|s| - 1] := true]
  }

  predicate AllCells(s: seq<int>) {
    forall i :: 0 <= i < |s| ==> 0 <= s[i] < Cells
  }

  /** Lines 201-214: the ships map of the request's indexes. */
  function ShipsOf(s: seq<int>): Result<map<int, bool>> {
    if !AllCells(s) then Err(DtoErrors.BadRequest2(MsgIndexRange, InvalidShipIndexValue))
    else if |KeysOf(s)| != ShipCount then Err(DtoErrors.BadRequest2(MsgRepeatedIndex, InvalidShipIndexValue))
    else Ok(KeysOf(s))
  }

  /** A ship list is accepted exactly when it names ten distinct cells of the
      board; the fleet is then those cells. */
  lemma ShipsOfFleet(s: seq<int>)
    ensures ShipsOf(s).Ok? <==> AllCells(s) && |set x | x in s| == ShipCount
    ensures ShipsOf(s).Ok? ==> (forall k :: k in ShipsOf(s).value <==> k in s) &&
                               (forall k :: k in ShipsOf(s).value ==> 0 <= k < Cells && ShipsOf(s).value[k])
  {
    var keys := KeysOf(s);
    assert keys.Keys == set x | x in s;
  }

  /** Lines 226 and 239: the cells of an accepted fleet, for the
      initial-ships event; each of the request's indexes appears once. */
  method FleetCells(indexes: seq<int>, ships: map<int, bool>) returns (locations: seq<int>)
    requires ShipsOf(indexes) == Ok(ships)
    ensures |locations| == ShipCount
    ensures forall k :: k in locations <==> k in indexes
  {
    ShipsOfFleet(indexes);
    locations := GetMapKeySlice(ships);
  }

  /** The loop of lines 201-214. */
  method BuildShips(indexes: seq<int>) returns (r: Result<map<int, bool>>)
    ensures r == ShipsOf(indexes)
  {
    var ships: map<int, bool> := map[];
    for i := 0 to |indexes|
      invariant AllCells(indexes[..i])
      invariant ships == KeysOf(indexes[..i])
    {
      var element := indexes[i];
      if element < 0 || element >= Cells {
        return Err(DtoErrors.BadRequest2(MsgIndexRange, InvalidShipIndexValue));
      }
      assert indexes[..i + 1][..i] == indexes[..i];
      ships := ships[element := true];
    }
    assert indexes[..|indexes|] == indexes;
    if |ships| != ShipCount {
      return Err(DtoErrors.BadRequest2(MsgRepeatedIndex, InvalidShipIndexValue));
    }
    return Ok(ships);
  }

  datatype Placement = Placement(game: Game, mover: Id, otherSide: Id)

  /** Lines 249-253: the game starts once both sides hold ten ships; the
      move time is reset either way. */
  function Settled(game: Game, now: int): Game {
    game.(status := if |game.state.side2Ships| == ShipCount && |game.state.side1Ships| == ShipCount then Start else game.status,
          lastMoveTime := now)
  }

  /** Lines 216-253: the ships go to the requester's side, side 1 first; a
      side that already has ships is refused; the other side's id is read
      through a pointer that may be nil. */
  function Place(game: Game, userId: Id, ships: map<int, bool>, now: int): (r: Result<Placement>)
    ensures r.Ok? ==> game.side1User.Some? && game.side2User.Some? &&
                      r.value.game.side1User == game.side1User && r.value.game.side2User == game.side2User &&
                      r.value.game.id == game.id && r.value.game.turn == game.turn && r.value.mover == userId
    ensures r.Ok? && game.side1User == Some(userId) ==>
              game.state.side1Ships == map[] && r.value.otherSide == game.side2User.value &&
              r.value.game == Settled(game.(state := game.state.(side1Ships := ships)), now)
    ensures r.Ok? && game.side1User != Some(userId) ==>
              game.side2User == Some(userId) && game.state.side2Ships == map[] && r.value.otherSide == game.side1User.value &&
              r.value.game == Settled(game.(state := game.state.(side2Ships := ships)), now)
    ensures game.side1User != Some(userId) && game.side2User != Some(userId) ==> r == Err(DtoErrors.BadRequest1(MsgNotInGame))
    ensures game.side1User == Some(userId) && game.state.side1Ships != map[] ==> r == Err(DtoErrors.Duplicate1(MsgAlreadyChosen))
    ensures game.side1User != Some(userId) && game.side2User == Some(userId) && game.state.side2Ships != map[] ==>
              r == Err(DtoErrors.Duplicate1(MsgAlreadyChosen))
    ensures game.side1User.Some? && game.side2User.Some? &&
            (if game.side1User == Some(userId) then game.state.side1Ships == map[]
             else game.side2User == Some(userId) && game.state.side2Ships == map[])
            ==> r.Ok?
    ensures r == Err(NilDeref) <==>
              (game.side1User == Some(userId) && game.state.side1Ships == map[] && game.side2User.None?) ||
              (game.side1User.None? && game.side2User == Some(userId) && game.state.side2Ships == map[])
  {
    if game.side1User.Some? && game.side1User.value == userId then
      if |game.state.side1Ships| > 0 then Err(DtoErrors.Duplicate1(MsgAlreadyChosen))
      else if game.side2User.None? then Err(NilDeref)
      else Ok(Placement(Settled(game.(state := game.state.(side1Ships := ships)), now), game.side1User.value, game.side2User.value))
    else if game.side2User.Some? && game.side2User.value == userId then
      if |game.state.side2Ships| > 0 then Err(DtoErrors.Duplicate1(MsgAlreadyChosen))
      else if game.side1User.None? then Err(NilDeref)
      else Ok(Placement(Settled(game.(state := game.state.(side2Ships := ships)), now), game.side2User.value, game.side1User.value))
    else Err(DtoErrors.BadRequest1(MsgNotInGame))
  }

  /** SubmitShipsLocations' decision, lines 190-253: the game must exist and
      be Joined, the cells must form a fleet, and then the fleet is placed. */
  function PlanSubmit(games: map<Id, Game>, gameId: Id, userId: Id, indexes: seq<int>, now: int): (r: Result<Placement>)
    ensures gameId !in games ==> r == Err(NotFound)
    ensures gameId in games && games[gameId].status != Joined ==>
              r == Err(DtoErrors.BadRequest2(MsgStatusInvalid, InvalidGameStatus))
    ensures gameId in games && games[gameId].status == Joined && ShipsOf(indexes).Err? ==> r == Err(ShipsOf(indexes).error)
    ensures gameId in games && games[gameId].status == Joined && ShipsOf(indexes).Ok? ==>
              r == Place(games[gameId], userId, ShipsOf(indexes).value, now)
  {
    var game :- Lookup(games, gameId);
    if game.status != Joined then Err(DtoErrors.BadRequest2(MsgStatusInvalid, InvalidGameStatus))
    else
      var ships :- ShipsOf(indexes);
      Place(game, userId, ships, now)
  }

  /** Each side places its fleet once; the game starts when the second fleet
      is placed, and the first placement leaves it Joined. */
  lemma SubmitStartsOnSecondFleet(games: map<Id, Game>, gameId: Id, userId: Id, indexes: seq<int>, now: int)
    requires PlanSubmit(games, gameId, userId, indexes, now).Ok?
    ensures var g := games[gameId];
            var p := PlanSubmit(games, gameId, userId, indexes, now).value;
            var other := if g.side1User == Some(userId) then g.state.side2Ships else g.state.side1Ships;
            g.status == Joined && p.game.lastMoveTime == now &&
            (p.game.status == Start <==> |other| == ShipCount) &&
            (p.game.status != Start ==> p.game.status == Joined) &&
            Place(p.game, userId, ShipsOf(indexes).value, now) == Err(DtoErrors.Duplicate1(MsgAlreadyChosen))
  {
    var g := games[gameId];
    ShipsOfFleet(indexes);
    var ships := ShipsOf(indexes).value;
    assert |ships| == ShipCount;
    assert ships != map[] by { assert |ships| != 0; }
  }

  // ---------------------------------------------------------------- the arbiter

  /** It is u's move in g: u sits on side 1 with Turn 1 (side 2 taken), or on
      side 2, side 1 being someone else, with Turn 2. */
  predicate HasMove(g: Game, u: Id) {
    (g.side1User == Some(u) && g.side2User.Some? && g.turn == 1) ||
    (g.side1User.Some? && g.side1User != Some(u) && g.side2User == Some(u) && g.turn == 2)
  }

  /** Started, and the last move at most a minute ago. */
  predicate InPlay(g: Game, now: int) {
    g.status == Start && !(g.lastMoveTime + ArbiterWindowSec < now)
  }

  /** The side u plays against. */
  function Opponent(g: Game, u: Id): Id
    requires g.side1User.Some? && g.side2User.Some?
  {
    if g.side1User == Some(u) then g.side2User.value else g.side1User.value
  }

  /** What getGameCheckItWithUserAndChangeTurn returns: the game (None for a
      failed lookup), the requester's and the other side's ids (the zero id
      when unset) and the error. */
  datatype Verdict = Verdict(game: Option<Game>, userId: Id, otherSide: Id, err: Option<GoError>)

  /** getGameCheckItWithUserAndChangeTurn: the gate of every move.  It
      admits exactly the player whose turn it is in a game in play, passes
      the turn to the other side and stamps the move time.  A member out of
      turn gets NotUserTurn with the game unchanged. */
  function Arbitrate(games: map<Id, Game>, gameId: Id, userId: Id, now: int): (v: Verdict)
    ensures v.err.None? <==> gameId in games && InPlay(games[gameId], now) && HasMove(games[gameId], userId)
    ensures v.err.None? ==>
              var g := games[gameId];
              v.game == Some(g.(turn := 3 - g.turn, lastMoveTime := now)) && v.userId == userId && v.otherSide == Opponent(g, userId)
    ensures v.err == Some(NotUserTurn) ==>
              gameId in games &&
              var g := games[gameId];
              InPlay(g, now) && g.side1User.Some? && g.side2User.Some? && !HasMove(g, userId) &&
              (g.side1User == Some(userId) || g.side2User == Some(userId)) &&
              v.game == Some(g) && v.userId == userId && v.otherSide == Opponent(g, userId)
    ensures gameId !in games ==> v.err == Some(NotFound)
    ensures gameId in games && games[gameId].status != Start ==>
              v.err == Some(DtoErrors.BadRequest2(MsgNotStarted, InvalidGameStatus))
    ensures gameId in games && games[gameId].status == Start && !InPlay(games[gameId], now) ==>
              v.err == Some(DtoErrors.BadRequest2(MsgFinished, GameIsFinished))
    ensures gameId in games && InPlay(games[gameId], now) &&
            games[gameId].side1User.Some? && games[gameId].side2User.Some? &&
            games[gameId].side1User != Some(userId) && games[gameId].side2User != Some(userId) ==>
              v.err == Some(DtoErrors.Forbidden1(MsgNotMember))
    ensures gameId in games && InPlay(games[gameId], now) &&
            games[gameId].side1User.Some? && games[gameId].side2User.Some? &&
            (games[gameId].side1User == Some(userId) || games[gameId].side2User == Some(userId)) &&
            !HasMove(games[gameId], userId) ==>
              v.err == Some(NotUserTurn) && v.game == Some(games[gameId])
    ensures v.err == Some(NilDeref) <==>
              gameId in games && InPlay(games[gameId], now) &&
              (games[gameId].side1User.None? || games[gameId].side2User.None?)
    ensures v.err.Some? && v.err.value.Panic? ==> v.err == Some(NilDeref)
  {
    if gameId !in games then Verdict(None, ZeroId, ZeroId, Some(NotFound))
    else
      var game := games[gameId];
      if game.status != Start then Verdict(Some(game), ZeroId, ZeroId, Some(DtoErrors.BadRequest2(MsgNotStarted, InvalidGameStatus)))
      else if game.lastMoveTime + ArbiterWindowSec < now then
        Verdict(Some(game), ZeroId, ZeroId, Some(DtoErrors.BadRequest2(MsgFinished, GameIsFinished)))
      else if game.side1User.None? then Verdict(Some(game), ZeroId, ZeroId, Some(NilDeref))
      else if game.side1User.value == userId then
        if game.side2User.None? then Verdict(Some(game), ZeroId, ZeroId, Some(NilDeref))
        else if game.turn == 1 then
          Verdict(Some(game.(turn := 2, lastMoveTime := now)), game.side1User.value, game.side2User.value, None)
        else Verdict(Some(game), game.side1User.value, game.side2User.value, Some(NotUserTurn))
      else if game.side2User.None? then Verdict(Some(game), ZeroId, ZeroId, Some(NilDeref))
      else if game.side2User.value == userId then
        if game.turn == 2 then
          Verdict(Some(game.(turn := 1, lastMoveTime := now)), game.side2User.value, game.side1User.value, None)
        else Verdict(Some(game), game.side2User.value, game.side1User.value, Some(NotUserTurn))
      else Verdict(Some(game), ZeroId, ZeroId, Some(DtoErrors.Forbidden1(MsgNotMember)))
  }

  /** Two players of one game never both have the move, and with a turn of 1
      or 2 and distinct players one of them has it. */
  lemma OneMoverAtATime(g: Game)
    requires g.side1User.Some? && g.side2User.Some? && g.side1User != g.side2User
    ensures !(HasMove(g, g.side1User.value) && HasMove(g, g.side2User.value))
    ensures g.turn == 1 || g.turn == 2 ==> HasMove(g, g.side1User.value) || HasMove(g, g.side2User.value)
  {
  }

  // ---------------------------------------------------------------- ChangeTurn

  /** The author of an event, read through its UserId pointer. */
  function SameAuthor(a: GameEvent, b: GameEvent): Result<bool> {
    var x :- Hex(a.userId);
    var y :- Hex(b.userId);
    Ok(x == y)
  }

  /** Lines 318-334: the newest events of the game are compared with the
      newest one through index 4 (under a guard of four events); if all five
      share an author, that author has won by forfeit. */
  function ForfeitVerdict(events: seq<GameEvent>): (r: Result<Option<Id>>)
    ensures r == Err(IndexOutOfRange) <==>
              |events| == 4 && events[0].userId.Some? && forall i :: 0 <= i < 4 ==> events[i].userId == events[0].userId
    ensures r.Ok? && r.value.Some? <==>
              |events| >= 5 && events[0].userId.Some? && forall i :: 0 <= i < 5 ==> events[i].userId == events[0].userId
    ensures r.Ok? && r.value.Some? ==> r.value == events[0].userId
    ensures r.Err? ==> r == Err(IndexOutOfRange) || r == Err(NilDeref)
  {
    if |events| < 4 then Ok(None)
    else
      var s1 :- SameAuthor(events[0], events[1]);
      if !s1 then Ok(None)
      else
        var s2 :- SameAuthor(events[0], events[2]);
        if !s2 then Ok(None)
        else
          var s3 :- SameAuthor(events[0], events[3]);
          if !s3 then Ok(None)
          else if |events| == 4 then Err(IndexOutOfRange)
          else
            var s4 :- SameAuthor(events[0], events[4]);
            if !s4 then Ok(None) else Ok(Some(events[0].userId.value))
  }

  datatype TurnPlan = TurnPlan(game: Game, mover: Id, otherSide: Id, winner: Option<Id>)

  /** ChangeTurn's decision, lines 300-344.  The player with the move passes
      it.  A member out of turn may take the turn once the move timeout plus
      two seconds has run out (the move time is then left as it was); if the
      game's five newest events are all theirs, they win by forfeit. */
  function PlanTurnChange(games: map<Id, Game>, log: seq<GameEvent>, gameId: Id, userId: Id, now: int): (r: Result<TurnPlan>)
    ensures r.Ok? ==>
              gameId in games &&
              var g := games[gameId];
              var p := r.value;
              InPlay(g, now) && g.side1User.Some? && g.side2User.Some? &&
              (g.side1User == Some(userId) || g.side2User == Some(userId)) &&
              p.mover == userId && p.otherSide == Opponent(g, userId) &&
              p.game == g.(turn := p.game.turn, lastMoveTime := p.game.lastMoveTime, status := p.game.status, winnerUser := p.game.winnerUser) &&
              p.game.turn == (if g.turn == 1 then 2 else 1) &&
              (p.game.status == Finished <==> p.winner.Some?) &&
              (p.winner.Some? ==> p.game.winnerUser == p.winner) &&
              (p.winner.None? ==> p.game.status == g.status && p.game.winnerUser == g.winnerUser)
    ensures r.Ok? && HasMove(games[gameId], userId) ==> r.value.game.lastMoveTime == now && r.value.winner.None?
    ensures r.Ok? && !HasMove(games[gameId], userId) ==>
              var g := games[gameId];
              r.value.game.lastMoveTime == g.lastMoveTime && g.lastMoveTime + g.moveTimeoutSec + ForfeitGraceSec < now &&
              g.moveTimeoutSec + ForfeitGraceSec < ArbiterWindowSec
    ensures r.Ok? && r.value.winner.Some? ==>
              var ev := EventsOf(log, gameId);
              |ev| >= 5 && r.value.winner == ev[0].userId && forall i :: 0 <= i < 5 ==> ev[i].userId == r.value.winner
    ensures Arbitrate(games, gameId, userId, now).err.Some? && Arbitrate(games, gameId, userId, now).err != Some(NotUserTurn) ==>
              r == Err(Arbitrate(games, gameId, userId, now).err.value)
    ensures Arbitrate(games, gameId, userId, now).err.None? ==>
              var g := games[gameId];
              r.Ok? && r.value.winner.None? && r.value.game == g.(turn := 3 - g.turn, lastMoveTime := now)
    ensures Arbitrate(games, gameId, userId, now).err == Some(NotUserTurn) ==>
              var g := games[gameId];
              var timedOut := !IsZero(g.id) && g.lastMoveTime + g.moveTimeoutSec + ForfeitGraceSec < now;
              var f := ForfeitVerdict(EventsOf(log, gameId));
              (!timedOut ==> r == Err(NotUserTurn)) &&
              (timedOut && f.Err? ==> r == Err(f.error)) &&
              (timedOut && f.Ok? ==> r.Ok? && r.value.winner == f.value && r.value.game.lastMoveTime == g.lastMoveTime)
  {
    var v := Arbitrate(games, gameId, userId, now);
    if v.err.None? then Ok(TurnPlan(v.game.value, v.userId, v.otherSide, None))
    else if v.err != Some(NotUserTurn) || IsZero(v.game.value.id) then Err(v.err.value)
    else
      var game := v.game.value;
      if !(game.lastMoveTime + game.moveTimeoutSec + ForfeitGraceSec < now) then Err(v.err.value)
      else
        var flipped := game.(turn := if game.turn == 1 then 2 else 1);
        var f := ForfeitVerdict(EventsOf(log, gameId));
        if f.Err? then Err(f.error)
        else if f.value.None? then Ok(TurnPlan(flipped, v.userId, v.otherSide, None))
        else Ok(TurnPlan(flipped.(status := Finished, winnerUser := f.value), v.userId, v.otherSide, f.value))
  }

  // ---------------------------------------------------------------- MoveShip, Reveal, Explode

  /** The side number of the requester, once the arbiter has admitted them. */
  function SideNumber(g: Game, u: Id): int {
    if g.side1User == Some(u) then 1 else 2
  }

  /** MoveShip's decision, lines 374-394: moving a ship is a move. */
  function PlanMove(board: BoardOps, games: map<Id, Game>, gameId: Id, userId: Id, from: int, to: int, now: int): (r: Result<Placement>)
    ensures r.Ok? ==>
              gameId in games &&
              var g := games[gameId];
              Arbitrate(games, gameId, userId, now).err.None? &&
              board.moveShip(g.state, SideNumber(g, userId), from, to).Ok? &&
              r.value == Placement(g.(state := board.moveShip(g.state, SideNumber(g, userId), from, to).value,
                                      turn := 3 - g.turn, lastMoveTime := now),
                                   userId, Opponent(g, userId))
    ensures Arbitrate(games, gameId, userId, now).err.Some? ==> r == Err(Arbitrate(games, gameId, userId, now).err.value)
    ensures r.Ok? <==>
              Arbitrate(games, gameId, userId, now).err.None? &&
              board.moveShip(games[gameId].state, SideNumber(games[gameId], userId), from, to).Ok?
    ensures Arbitrate(games, gameId, userId, now).err.None? &&
            board.moveShip(games[gameId].state, SideNumber(games[gameId], userId), from, to).Err? ==>
              r == Err(board.moveShip(games[gameId].state, SideNumber(games[gameId], userId), from, to).error)
  {
    var v := Arbitrate(games, gameId, userId, now);
    if v.err.Some? then Err(v.err.value)
    else
      var game := v.game.value;
      var moved := board.moveShip(game.state, SideNumber(game, userId), from, to);
      if moved.Err? then Err(moved.error)
      else Ok(Placement(game.(state := moved.value), v.userId, v.otherSide))
  }

  datatype Sighting = Sighting(game: Game, mover: Id, otherSide: Id, revealed: seq<int>)

  /** Reveal's decision, lines 445-456: the requester looks at the enemy's
      board, and that is their move. */
  function PlanReveal(board: BoardOps, games: map<Id, Game>, gameId: Id, userId: Id, index: int, now: int): (r: Result<Sighting>)
    ensures r.Ok? <==> Arbitrate(games, gameId, userId, now).err.None?
    ensures r.Ok? ==>
              var g := games[gameId];
              var seen := board.revealSlot(g.state, 3 - SideNumber(g, userId), index);
              r.value == Sighting(g.(state := seen.0, turn := 3 - g.turn, lastMoveTime := now), userId, Opponent(g, userId), seen.1)
    ensures r.Err? ==> r == Err(Arbitrate(games, gameId, userId, now).err.value)
  {
    var v := Arbitrate(games, gameId, userId, now);
    if v.err.Some? then Err(v.err.value)
    else
      var game := v.game.value;
      var seen := board.revealSlot(game.state, 3 - SideNumber(game, userId), index);
      Ok(Sighting(game.(state := seen.0), v.userId, v.otherSide, seen.1))
  }

  datatype Shot = Shot(game: Game, mover: Id, otherSide: Id, hasShip: bool)

  /** Explode's decision, lines 506-524: the requester fires at the enemy's
      board; a hit gives the turn back to them. */
  function PlanExplode(board: BoardOps, games: map<Id, Game>, gameId: Id, userId: Id, index: int, now: int): (r: Result<Shot>)
    ensures r.Ok? <==> Arbitrate(games, gameId, userId, now).err.None?
    ensures r.Err? ==> r == Err(Arbitrate(games, gameId, userId, now).err.value)
    ensures r.Ok? ==>
              var g := games[gameId];
              var armed := g.(turn := 3 - g.turn, lastMoveTime := now);
              var o := board.explode(armed, 3 - SideNumber(g, userId), index);
              r.value.hasShip == o.hasShip && r.value.mover == userId && r.value.otherSide == Opponent(g, userId) &&
              r.value.game == armed.(state := o.state, status := o.status, winnerUser := o.winnerUser,
                                     turn := if o.hasShip then g.turn else 3 - g.turn)
  {
    var v := Arbitrate(games, gameId, userId, now);
    if v.err.Some? then Err(v.err.value)
    else
      var game := v.game.value;
      var o := board.explode(game, 3 - SideNumber(game, userId), index);
      var hit := game.(state := o.state, status := o.status, winnerUser := o.winnerUser);
      var after := if o.hasShip then hit.(turn := if hit.turn == 1 then 2 else 1) else hit;
      Ok(Shot(after, v.userId, v.otherSide, o.hasShip))
  }

  // ---------------------------------------------------------------- the store's invariant

  /** What the event log keeps about a game: its oldest event is side 1's
      join; once side 2 is set, the next oldest is an event by someone else
      (side 2's join); before that it is the only event; and every event has
      an author. */
  ghost predicate History(game: Game, events: seq<GameEvent>) {
    game.side1User.Some? && 1 <= |events| &&
    (forall i :: 0 <= i < |events| ==> events[i].userId.Some?) &&
    events[|events| - 1].userId == game.side1User &&
    (game.side2User.None? ==> |events| == 1 && game.status == Init) &&
    (game.side2User.Some? ==> 2 <= |events| && events[|events| - 2].userId != game.side1User)
  }

  /** The invariant of the store: each game is stored under its own id, which
      is no user's id; its players are two different users; its turn is 1 or
      2; its event list has a History. */
  ghost predicate Consistent(games: map<Id, Game>, log: seq<GameEvent>, users: set<Id>) {
    forall g :: g in games ==>
      games[g].id == g && g !in users && History(games[g], EventsOf(log, g)) &&
      games[g].side1User.Some? && games[g].side1User.value in users &&
      (games[g].side2User.Some? ==> games[g].side2User.value in users && games[g].side2User != games[g].side1User) &&
      (games[g].turn == 1 || games[g].turn == 2)
  }

  lemma HistoryPrepend(game: Game, e: GameEvent, events: seq<GameEvent>)
    requires History(game, events) && game.side2User.Some? && e.userId.Some?
    ensures History(game, [e] + events)
  {
    var s := [e] + events;
    assert s[|s| - 1] == events[|events| - 1];
    assert s[|s| - 2] == events[|events| - 2];
    forall i | 0 <= i < |s|
      ensures s[i].userId.Some?
    {
      if i > 0 {
        assert s[i] == events[i - 1];
      }
    }
  }

  /** A game with two players whose History holds never meets the overrun of
      index 4, nor a nil author: its two oldest events have different
      authors, so four events cannot all share one. */
  lemma ForfeitSafe(game: Game, events: seq<GameEvent>)
    requires History(game, events) && game.side2User.Some?
    ensures ForfeitVerdict(events).Ok?
  {
    if |events| == 4 {
      assert events[2].userId != events[3].userId;
    }
    if |events| >= 5 {
      assert events[4].userId.Some?;
    }
    if |events| >= 4 {
      assert events[0].userId.Some? && events[1].userId.Some? && events[2].userId.Some? && events[3].userId.Some?;
    }
  }

  /** Storing a changed game with the same players, and logging one event of
      that game or of a user, keeps the store Consistent. */
  lemma RecordMove(games: map<Id, Game>, log: seq<GameEvent>, users: set<Id>, gameId: Id, game: Game, e: GameEvent)
    requires Consistent(games, log, users) && gameId in games
    requires game.id == gameId && game.side1User == games[gameId].side1User && game.side2User == games[gameId].side2User
    requires game.side2User.Some? && (game.turn == 1 || game.turn == 2)
    requires e.userId.Some? && (e.gameId == gameId || e.gameId in users)
    ensures Consistent(games[gameId := game], [e] + log, users)
  {
    var after := games[gameId := game];
    forall g | g in after
      ensures History(after[g], EventsOf([e] + log, g))
    {
      RecordMoveAt(games, log, users, gameId, game, e, g);
    }
  }

  lemma RecordMoveAt(games: map<Id, Game>, log: seq<GameEvent>, users: set<Id>, gameId: Id, game: Game, e: GameEvent, g: Id)
    requires Consistent(games, log, users) && gameId in games
    requires game.id == gameId && game.side1User == games[gameId].side1User && game.side2User == games[gameId].side2User
    requires game.side2User.Some? && (game.turn == 1 || game.turn == 2)
    requires e.userId.Some? && (e.gameId == gameId || e.gameId in users)
    requires g in games[gameId := game]
    ensures History(games[gameId := game][g], EventsOf([e] + log, g))
  {
    EventsOfInsert(e, log, g);
    assert History(games[g], EventsOf(log, g));
    if g == gameId && e.gameId == g {
      HistoryPrepend(game, e, EventsOf(log, g));
    }
  }

  /** Storing a changed game with the same players, with nothing logged. */
  lemma RecordStore(games: map<Id, Game>, log: seq<GameEvent>, users: set<Id>, gameId: Id, game: Game)
    requires Consistent(games, log, users) && gameId in games
    requires game.id == gameId && game.side1User == games[gameId].side1User && game.side2User == games[gameId].side2User
    requires game.side2User.Some? && (game.turn == 1 || game.turn == 2)
    ensures Consistent(games[gameId := game], log, users)
  {
  }

  /** JoinGame keeps the store Consistent. */
  lemma RecordJoin(games: map<Id, Game>, log: seq<GameEvent>, users: set<Id>, gameId: Id, u: Id, now: int)
    requires Consistent(games, log, users) && gameId in games
    requires games[gameId].side1User != Some(u) && u in users
    ensures Consistent(games[gameId := games[gameId].(side2User := Some(u), status := Joined)],
                       [PlainEvent(JoinGame, gameId, u, now)] + log, users)
  {
    var e := PlainEvent(JoinGame, gameId, u, now);
    var after := games[gameId := games[gameId].(side2User := Some(u), status := Joined)];
    forall g | g in after
      ensures History(after[g], EventsOf([e] + log, g))
    {
      EventsOfInsert(e, log, g);
      assert History(games[g], EventsOf(log, g));
      if g == gameId {
        JoinHistory(games[g], u, e, EventsOf(log, g));
      }
    }
  }

  lemma JoinHistory(game: Game, u: Id, e: GameEvent, events: seq<GameEvent>)
    requires History(game, events) && game.side1User != Some(u) && e.userId == Some(u)
    ensures History(game.(side2User := Some(u), status := Joined), [e] + events)
  {
    var s := [e] + events;
    assert s[|s| - 1] == events[|events| - 1];
    assert s[|s| - 2] == if |events| == 1 then e else events[|events| - 2];
    forall i | 0 <= i < |s|
      ensures s[i].userId.Some?
    {
      if i > 0 {
        assert s[i] == events[i - 1];
      }
    }
  }

  /** CreateGame keeps the store Consistent, for an id nothing refers to yet. */
  lemma RecordCreate(games: map<Id, Game>, log: seq<GameEvent>, users: set<Id>, game: Game, now: int)
    requires Consistent(games, log, users)
    requires game.id !in games && game.id !in users && forall e :: e in log ==> e.gameId != game.id
    requires game.side1User.Some? && game.side1User.value in users && game.side2User.None? && game.status == Init
    requires game.turn == 1 || game.turn == 2
    ensures Consistent(games[game.id := game], [PlainEvent(JoinGame, game.id, game.side1User.value, now)] + log, users)
  {
    var e := PlainEvent(JoinGame, game.id, game.side1User.value, now);
    var after := games[game.id := game];
    forall g | g in after
      ensures History(after[g], EventsOf([e] + log, g))
    {
      EventsOfInsert(e, log, g);
      if g == game.id {
        EventsOfNone(log, g);
        assert [e] + EventsOf(log, g) == [e];
      }
    }
  }

  /** A move passes the turn: afterwards the opponent has the move and the
      mover does not. */
  lemma PassTurn(g: Game, u: Id)
    requires HasMove(g, u) && g.side1User != g.side2User
    ensures var h := g.(turn := 3 - g.turn);
            HasMove(h, Opponent(g, u)) && !HasMove(h, u)
  {
  }

  /** In a Consistent store, moving a ship and revealing a cell give the move
      to the opponent. */
  lemma MoveAndRevealPassTheTurn(board: BoardOps, games: map<Id, Game>, log: seq<GameEvent>, users: set<Id>,
                                 gameId: Id, userId: Id, from: int, to: int, index: int, now: int)
    requires Consistent(games, log, users)
    ensures var p := PlanMove(board, games, gameId, userId, from, to, now);
            p.Ok? ==> HasMove(p.value.game, p.value.otherSide) && !HasMove(p.value.game, userId)
    ensures var p := PlanReveal(board, games, gameId, userId, index, now);
            p.Ok? ==> HasMove(p.value.game, p.value.otherSide) && !HasMove(p.value.game, userId)
  {
    if Arbitrate(games, gameId, userId, now).err.None? {
      PassTurn(games[gameId], userId);
    }
  }

  /** The turn rule of Explode (lines 512-524): in a Consistent store, after a
      shot the shooter keeps the move exactly when it hit a ship; after a
      miss the opponent has it. */
  lemma ExplodeTurnRule(board: BoardOps, games: map<Id, Game>, log: seq<GameEvent>, users: set<Id>,
                        gameId: Id, userId: Id, index: int, now: int)
    requires Consistent(games, log, users)
    requires PlanExplode(board, games, gameId, userId, index, now).Ok?
    ensures var s := PlanExplode(board, games, gameId, userId, index, now).value;
            (HasMove(s.game, userId) <==> s.hasShip) &&
            (HasMove(s.game, s.otherSide) <==> !s.hasShip) &&
            s.game.lastMoveTime == now
  {
    PassTurn(games[gameId], userId);
  }

  /** ChangeTurn moves the turn to whoever did not have it: the player with
      the move passes it, and a waiting player whose opponent has let the
      move timeout run out takes it. */
  lemma ChangeTurnSwapsMover(games: map<Id, Game>, log: seq<GameEvent>, users: set<Id>, gameId: Id, userId: Id, now: int)
    requires Consistent(games, log, users)
    requires PlanTurnChange(games, log, gameId, userId, now).Ok?
    ensures var g := games[gameId];
            var p := PlanTurnChange(games, log, gameId, userId, now).value;
            (HasMove(g, userId) ==> HasMove(p.game, p.otherSide) && !HasMove(p.game, userId)) &&
            (!HasMove(g, userId) ==> HasMove(p.game, userId) && !HasMove(p.game, p.otherSide))
  {
    var g := games[gameId];
    if HasMove(g, userId) {
      PassTurn(g, userId);
    }
  }

  /** In a Consistent store the arbiter never meets a nil player. */
  lemma ArbiterNeverPanics(games: map<Id, Game>, log: seq<GameEvent>, users: set<Id>, gameId: Id, userId: Id, now: int)
    requires Consistent(games, log, users)
    ensures Arbitrate(games, gameId, userId, now).err.Some? ==> !Arbitrate(games, gameId, userId, now).err.value.Panic?
  {
    if gameId in games {
      assert History(games[gameId], EventsOf(log, gameId));
    }
  }

  /** In a Consistent store ChangeTurn's decision never panics: neither the
      arbiter nor the forfeit check (whose guard admits four events but
      reads a fifth) can fail on a reachable game. */
  lemma ChangeTurnNeverPanics(games: map<Id, Game>, log: seq<GameEvent>, users: set<Id>, gameId: Id, userId: Id, now: int)
    requires Consistent(games, log, users)
    ensures PlanTurnChange(games, log, gameId, userId, now).Err? ==> !PlanTurnChange(games, log, gameId, userId, now).error.Panic?
  {
    ArbiterNeverPanics(games, log, users, gameId, userId, now);
    var v := Arbitrate(games, gameId, userId, now);
    if v.err == Some(NotUserTurn) {
      ForfeitSafe(games[gameId], EventsOf(log, gameId));
    }
  }

  /** In a Consistent store a fleet submission never meets a nil player: a
      Joined game has both. */
  lemma SubmitNeverPanics(games: map<Id, Game>, log: seq<GameEvent>, users: set<Id>, gameId: Id, userId: Id, indexes: seq<int>, now: int)
    requires Consistent(games, log, users)
    ensures PlanSubmit(games, gameId, userId, indexes, now).Err? ==> !PlanSubmit(games, gameId, userId, indexes, now).error.Panic?
  {
    if gameId in games {
      assert History(games[gameId], EventsOf(log, gameId));
    }
  }

  // ---------------------------------------------------------------- GetGame

  /** GetGame, lines 117-134: anyone may read a game with an empty user id; a
      user id must be one of the players (side 1's and then side 2's id are
      read through pointers that may be nil).  The answer is the requester's
      view. */
  function GetGameView(games: map<Id, Game>, gameId: Id, userId: Id, rng: Rng): (r: Result<GameDto>)
    ensures gameId !in games ==> r == Err(NotFound)
    ensures r.Ok? <==> gameId in games &&
                       (userId == [] || games[gameId].side1User == Some(userId) ||
                        (games[gameId].side1User.Some? && games[gameId].side2User == Some(userId)))
    ensures r.Ok? ==> r.value == View(EmptyGameDto, games[gameId], userId, rng)
    ensures gameId in games && userId != [] && games[gameId].side1User.Some? && games[gameId].side2User.Some? &&
            games[gameId].side1User != Some(userId) && games[gameId].side2User != Some(userId) ==>
              r == Err(DtoErrors.Forbidden1(MsgNoAccess))
    ensures r.Err? && r.error.Panic? ==> r == Err(NilDeref)
  {
    var g :- Lookup(games, gameId);
    if userId == [] then Ok(View(EmptyGameDto, g, userId, rng))
    else
      var side1 :- Hex(g.side1User);
      if side1 == userId then Ok(View(EmptyGameDto, g, userId, rng))
      else
        var side2 :- Hex(g.side2User);
        if side2 == userId then Ok(View(EmptyGameDto, g, userId, rng))
        else Err(DtoErrors.Forbidden1(MsgNoAccess))
  }

  /** As written, a stranger asking for a game nobody has joined yet meets
      Side2User.Hex() on a nil pointer, a panic, instead of a Forbidden.
      Such games are the ones CreateGame stores. */
  lemma GetGameStrangerPanics(games: map<Id, Game>, gameId: Id, userId: Id, rng: Rng)
    requires gameId in games && games[gameId].side1User.Some? && games[gameId].side2User.None?
    requires userId != [] && userId != games[gameId].side1User.value
    ensures GetGameView(games, gameId, userId, rng) == Err(NilDeref)
  {
  }

  /** GetGame with the evidently intended check: the requester's id is
      compared with the players' ids without dereferencing a nil one. */
  function GetGameViewChecked(games: map<Id, Game>, gameId: Id, userId: Id, rng: Rng): Result<GameDto> {
    var g :- Lookup(games, gameId);
    if userId != [] && g.side1User != Some(userId) && g.side2User != Some(userId) then Err(DtoErrors.Forbidden1(MsgNoAccess))
    else Ok(View(EmptyGameDto, g, userId, rng))
  }

  /** The checked GetGame never panics: it answers the players (and an empty
      user id) with their view, refuses every stranger with Forbidden, and
      agrees with the code as written wherever that does not panic. */
  lemma GetGameCheckedRefusesStrangers(games: map<Id, Game>, gameId: Id, userId: Id, rng: Rng)
    ensures var r := GetGameViewChecked(games, gameId, userId, rng);
            (gameId !in games ==> r == Err(NotFound)) &&
            (r.Ok? <==> gameId in games && (userId == [] || games[gameId].side1User == Some(userId) || games[gameId].side2User == Some(userId))) &&
            (r.Ok? ==> r.value == View(EmptyGameDto, games[gameId], userId, rng)) &&
            (gameId in games && r.Err? ==> r == Err(DtoErrors.Forbidden1(MsgNoAccess))) &&
            (GetGameView(games, gameId, userId, rng) != Err(NilDeref) ==> GetGameView(games, gameId, userId, rng) == r)
  {
  }

  /** What SocketConnect (lines 590-645) returns and leaves in the registry
      and the outboxes: a missing registry entry is created under the
      request's game id; a player's connection goes on their side, stored
      under the game's own id; in a Joined game the other player (read
      through a pointer that may be nil) is told, and only a panic of that
      write stops the store. */
  function SocketConnectOutcome(games: map<Id, Game>, entries: map<Id, GameData>, closed: set<Handle>,
                                outbox: map<Handle, seq<Message>>, gameId: Id, userId: Id, socket: Option<Handle>, rng: Rng)
    : (r: (Option<GoError>, map<Id, GameData>, map<Handle, seq<Message>>))
    ensures gameId !in games ==> r == (Some(NotFound), entries, outbox)
    ensures gameId in games ==> gameId in r.1 && (r.0.None? || r.1 == entries[gameId := ConnectionEvents.EntryOf(entries, gameId)])
    ensures forall k :: k in entries ==> k in r.1
    ensures gameId in games && MemberSide(games[gameId], userId) == ConnectionEvents.Stranger ==>
              r == (Some(DtoErrors.BadRequest1(MsgSocketStranger)), entries[gameId := ConnectionEvents.EntryOf(entries, gameId)], outbox)
    ensures gameId in games && MemberSide(games[gameId], userId) != ConnectionEvents.Stranger ==>
              var game := games[gameId];
              var side := MemberSide(game, userId);
              var data := ConnectionEvents.EntryOf(entries, gameId);
              var mid := entries[gameId := data];
              var stored := mid[game.id := ConnectionEvents.Connected(data, side, userId, socket)];
              var other := OtherUser(game, side);
              (game.status != Joined ==> r == (None, stored, outbox)) &&
              (game.status == Joined && other.None? ==> r == (Some(NilDeref), mid, outbox)) &&
              (game.status == Joined && other.Some? ==>
                 var route := RouteOf(mid, Masked(game.id, rng), Masked(other.value, rng), rng);
                 r.2 == Dispatch(route, closed, outbox, ConnectNotice(game, other.value, rng), true).1 &&
                 (r.0.None? <==> route != ToSocket(None)) &&
                 (r.0.None? ==> r.1 == stored) &&
                 (r.0.Some? ==> r.0 == Some(NilDeref) && r.1 == mid))
  {
    if gameId !in games then (Some(NotFound), entries, outbox)
    else
      var game := games[gameId];
      var data := ConnectionEvents.EntryOf(entries, gameId);
      var mid := entries[gameId := data];
      var side := MemberSide(game, userId);
      if side == ConnectionEvents.Stranger then (Some(DtoErrors.BadRequest1(MsgSocketStranger)), mid, outbox)
      else
        var stored := mid[game.id := ConnectionEvents.Connected(data, side, userId, socket)];
        if game.status != Joined then (None, stored, outbox)
        else
          var other := OtherUser(game, side);
          if other.None? then (Some(NilDeref), mid, outbox)
          else
            var route := RouteOf(mid, Masked(game.id, rng), Masked(other.value, rng), rng);
            var sent := Dispatch(route, closed, outbox, ConnectNotice(game, other.value, rng), true);
            DispatchEffect(route, closed, outbox, ConnectNotice(game, other.value, rng), true);
            if PanicOnly(sent.0).Some? then (sent.0, mid, sent.1) else (None, stored, sent.1)
  }

  /** The side the game gives a user: side 1 is checked first. */
  function MemberSide(game: Game, userId: Id): ConnectionEvents.Side {
    ConnectionEvents.SideOf(ConnectionEvents.GameSides(game.side1User, game.side2User), userId)
  }

  /** The player a connect is announced to: the one on the other side. */
  function OtherUser(game: Game, side: ConnectionEvents.Side): Option<Id> {
    if side == ConnectionEvents.Side1 then game.side2User else game.side1User
  }

  /** Lines 628-631: the GameConnect event, with masked ids. */
  function ConnectNotice(game: Game, other: Id, rng: Rng): Message {
    Message(Sockets.Connect, DtoGame.GameConnect(Masked(game.id, rng), Masked(other, rng)))
  }

  /** In a game stored under its own id, a member gets in unless the game is
      Joined and the other side is missing or routed to a nil connection; a
      member who gets in is registered on their side and is then reachable:
      events the service sends them with masked ids are routed to the new
      connection.  The other side, when connected on an open socket, gets
      the GameConnect event.  A stranger is refused and nobody is told. */
  lemma SocketConnectRegisters(games: map<Id, Game>, entries: map<Id, GameData>, closed: set<Handle>,
                               outbox: map<Handle, seq<Message>>, gameId: Id, userId: Id, socket: Option<Handle>, rng: Rng)
    requires gameId in games && games[gameId].id == gameId
    ensures var r := SocketConnectOutcome(games, entries, closed, outbox, gameId, userId, socket, rng);
            var game := games[gameId];
            var side := MemberSide(game, userId);
            var data := ConnectionEvents.EntryOf(entries, gameId);
            var other := OtherUser(game, side);
            (side == ConnectionEvents.Stranger ==> r.0 == Some(DtoErrors.BadRequest1(MsgSocketStranger)) && r.2 == outbox) &&
            (side != ConnectionEvents.Stranger ==>
               (r.0.None? <==> game.status != Joined ||
                               (other.Some? && RouteOf(entries[gameId := data], Masked(gameId, rng), Masked(other.value, rng), rng) != ToSocket(None))) &&
               (r.0.None? ==> r.1 == entries[gameId := ConnectionEvents.Connected(data, side, userId, socket)]) &&
               (r.0.None? && (side == ConnectionEvents.Side1 || data.side1UserId != userId) ==>
                  RouteOf(r.1, Masked(gameId, rng), Masked(userId, rng), rng) == ToSocket(socket) &&
                  GetUser(r.1[gameId], userId) == Ok(userId))) &&
            (side != ConnectionEvents.Stranger && game.status == Joined && other.Some? ==>
               forall h :: RouteOf(entries[gameId := data], Masked(gameId, rng), Masked(other.value, rng), rng) == ToSocket(Some(h)) && h !in closed ==>
                 Sent(r.2, h) == Sent(outbox, h) + [ConnectNotice(game, other.value, rng)])
  {
    var game := games[gameId];
    var side := MemberSide(game, userId);
    var r := SocketConnectOutcome(games, entries, closed, outbox, gameId, userId, socket, rng);
    var data := ConnectionEvents.EntryOf(entries, gameId);
    if side != ConnectionEvents.Stranger {
      var connected := ConnectionEvents.Connected(data, side, userId, socket);
      if r.0.None? {
        assert r.1 == entries[gameId := data][gameId := connected];
        assert r.1 == entries[gameId := connected];
        if side == ConnectionEvents.Side1 || data.side1UserId != userId {
          ConnectionEvents.ConnectedRoutes(entries, gameId, userId, side, socket, rng);
        }
      }
      var other := OtherUser(game, side);
      if game.status == Joined && other.Some? {
        var route := RouteOf(entries[gameId := data], Masked(gameId, rng), Masked(other.value, rng), rng);
        DispatchEffect(route, closed, outbox, ConnectNotice(game, other.value, rng), true);
      }
    }
  }

  /** The game CreateGame builds, lines 59-81: both grounds are the map of
      lines 59-62. */
  ghost predicate NewGame(g: Game, gameId: Id, userId: Id, moveTimeout: int, now: int, coin: nat) {
    g.id == gameId && g.status == Init && g.side1User == Some(userId) && g.side2User.None? &&
    g.turn == coin % 2 + 1 && g.lastMoveTime == now && g.createDate == now && g.moveTimeoutSec == moveTimeout &&
    g.winnerUser.None? &&
    g.state.side1Ships == map[] && g.state.side2Ships == map[] &&
    g.state.side1RevealedShips == map[] && g.state.side2RevealedShips == map[] &&
    FullGround(g.state.side1Ground) && g.state.side2Ground == g.state.side1Ground
  }

  /** GameServiceImpl: the game store (gameDao), the event log
      (gameEventDao, newest first), the registered users (userDao), the newer
      board model, and the router of outgoing events.  Clock readings and
      the random draw for the first turn are parameters. */
  class GameServiceImpl {
    var games: map<Id, Game>
    var log: seq<GameEvent>
    const users: set<Id>
    const board: BoardOps
    const handler: OutgoingEventHandler

    ghost predicate Valid()
      reads this
    {
      Consistent(games, log, users)
    }

    constructor (users: set<Id>, board: BoardOps, handler: OutgoingEventHandler)
      ensures this.users == users && this.board == board && this.handler == handler
      ensures games == map[] && log == []
      ensures Valid()
    {
      this.users := users;
      this.board := board;
      this.handler := handler;
      games := map[];
      log := [];
    }

    /** GetGame on the current store, with the membership check that does
        not dereference a missing side 2 (GetGameViewChecked).  The view a
        player gets is the one FromGame builds for them. */
    function GetGame(gameId: Id, userId: Id): (r: Result<GameDto>)
      reads this
      ensures gameId !in games ==> r == Err(NotFound)
      ensures r.Ok? <==> gameId in games && (userId == [] || games[gameId].side1User == Some(userId) || games[gameId].side2User == Some(userId))
      ensures r.Ok? ==> r.value == View(EmptyGameDto, games[gameId], userId, handler.rng)
      ensures gameId in games && r.Err? ==> r == Err(DtoErrors.Forbidden1(MsgNoAccess))
    {
      GetGameCheckedRefusesStrangers(games, gameId, userId, handler.rng);
      GetGameViewChecked(games, gameId, userId, handler.rng)
    }

    /** Stores a game a move has changed and logs the move's event. */
    method StoreMove(gameId: Id, game: Game, e: GameEvent)
      requires gameId in games
      requires Valid() ==> game.id == games[gameId].id &&
                           game.side1User == games[gameId].side1User && game.side2User == games[gameId].side2User &&
                           game.side2User.Some? && (game.turn == 1 || game.turn == 2) &&
                           e.userId.Some? && (e.gameId == gameId || e.gameId in users)
      modifies this
      ensures games == old(games)[game.id := game] && log == [e] + old(log)
      ensures old(Valid()) ==> Valid()
    {
      if Valid() {
        RecordMove(games, log, users, gameId, game, e);
      }
      games := games[game.id := game];
      log := [e] + log;
    }

    /** Stores a changed game without logging anything. */
    method StoreGame(gameId: Id, game: Game)
      requires gameId in games
      requires Valid() ==> game.id == games[gameId].id &&
                           game.side1User == games[gameId].side1User && game.side2User == games[gameId].side2User &&
                           game.side2User.Some? && (game.turn == 1 || game.turn == 2)
      modifies this
      ensures games == old(games)[game.id := game] && log == old(log)
      ensures old(Valid()) ==> Valid()
    {
      if Valid() {
        RecordStore(games, log, users, gameId, game);
      }
      games := games[game.id := game];
    }

    /** Lines 262-271: the side that placed its fleet first gets the game,
        as FromGame shows it to them, in a GameStart event. */
    method AnnounceStart(game: Game, otherSide: Id) returns (err: Option<GoError>)
      modifies handler.network
      ensures var dto := View(EmptyGameDto, game, otherSide, handler.rng);
              (err, handler.network.outbox) ==
              Dispatch(RouteOf(handler.registry.entries, dto.id, dto.userId, handler.rng),
                       old(handler.network.closed), old(handler.network.outbox),
                       Message(Sockets.GameStart, DtoGame.GameStartEvent(dto)), true)
      ensures handler.network.closed == old(handler.network.closed)
    {
      var dto := FromGame(EmptyGameDto, game, otherSide, handler.rng);
      err := handler.GameStart(dto);
    }

    /** CreateGame, lines 49-115.  gameId is the id the store assigns to the
        new game: one nothing refers to yet. */
    method CreateGame(userId: Id, moveTimeout: int, now: int, coin: nat, gameId: Id) returns (res: Result<GameDto>)
      requires gameId !in games && gameId !in users && forall e :: e in log ==> e.gameId != gameId
      modifies this
      ensures userId !in users ==> res == Err(NotFound) && games == old(games) && log == old(log)
      ensures userId in users ==>
                gameId in games && games == old(games)[gameId := games[gameId]] &&
                NewGame(games[gameId], gameId, userId, moveTimeout, now, coin) &&
                log == [PlainEvent(EventType.JoinGame, gameId, userId, now)] + old(log) &&
                res == Ok(View(EmptyGameDto, games[gameId], userId, handler.rng))
      ensures old(Valid()) ==> Valid()
    {
      if userId !in users {
        return Err(NotFound);
      }
      var fields := BuildGround();
      var game := Game(gameId, GameState(map[], fields, map[], fields, map[], map[]), Init, Some(userId), None,
                       coin % 2 + 1, now, moveTimeout, now, None);
      if Valid() {
        RecordCreate(games, log, users, game, now);
      }
      games := games[gameId := game];
      log := [PlainEvent(EventType.JoinGame, gameId, userId, now)] + log;
      var view := FromGame(EmptyGameDto, game, userId, handler.rng);
      res := Ok(view);
    }

    /** JoinGame, lines 136-186. */
    method JoinGame(userId: Id, gameId: Id, now: int) returns (res: Result<GameDto>)
      modifies this
      ensures userId !in users || gameId !in old(games) ==> res == Err(NotFound) && games == old(games) && log == old(log)
      ensures userId in users && gameId in old(games) ==>
                var g := old(games)[gameId];
                var j := JoinOutcome(g, userId);
                (j.Err? ==> res == Err(j.error) && games == old(games) && log == old(log)) &&
                (j.Ok? && g.side1User == Some(userId) ==>
                   res == Ok(View(EmptyGameDto, g, userId, handler.rng)) && games == old(games) && log == old(log)) &&
                (j.Ok? && g.side1User != Some(userId) ==>
                   games == old(games)[g.id := j.value] &&
                   log == [PlainEvent(EventType.JoinGame, g.id, userId, now)] + old(log) &&
                   res == Ok(View(EmptyGameDto, j.value, userId, handler.rng)))
      ensures old(Valid()) ==> Valid()
    {
      if userId !in users || gameId !in games {
        return Err(NotFound);
      }
      var game := games[gameId];
      var j := JoinOutcome(game, userId);
      if j.Err? {
        return Err(j.error);
      }
      if game.side1User.value != userId {
        if Valid() {
          RecordJoin(games, log, users, gameId, userId, now);
        }
        game := j.value;
        games := games[game.id := game];
        log := [PlainEvent(EventType.JoinGame, game.id, userId, now)] + log;
      }
      var view := FromGame(EmptyGameDto, game, userId, handler.rng);
      res := Ok(view);
    }

    /** SubmitShipsLocations, lines 188-278: the fleet is stored, its cells
        are logged (under the swapped ids of persistInitialShipLocationEvent),
        and when both fleets are in, the side that placed first is told the
        game has started. */
    method SubmitShipsLocations(userId: Id, gameId: Id, indexes: seq<int>, now: int) returns (res: Result<(Status, int)>)
      modifies this, handler.network
      ensures var p := PlanSubmit(old(games), gameId, userId, indexes, now);
              (p.Err? ==> res == Err(p.error) && games == old(games) && log == old(log) &&
                          handler.network.outbox == old(handler.network.outbox)) &&
              (p.Ok? ==>
                 var game := p.value.game;
                 games == old(games)[game.id := game] &&
                 |log| == |old(log)| + 1 && log[1..] == old(log) &&
                 log[0] == InitialShipsRecord(game.id, p.value.mover, log[0].initialShipsLocations, now) &&
                 |log[0].initialShipsLocations| == ShipCount &&
                 (forall k :: k in log[0].initialShipsLocations <==> k in indexes) &&
                 (game.status != Start ==>
                    res == Ok((game.status, game.turn)) && handler.network.outbox == old(handler.network.outbox)) &&
                 (game.status == Start ==>
                    var dto := View(EmptyGameDto, game, p.value.otherSide, handler.rng);
                    var sent := Dispatch(RouteOf(handler.registry.entries, dto.id, dto.userId, handler.rng),
                                         old(handler.network.closed), old(handler.network.outbox),
                                         Message(Sockets.GameStart, DtoGame.GameStartEvent(dto)), true);
                    handler.network.outbox == sent.1 &&
                    res == (if sent.0.Some? then Err(sent.0.value) else Ok((Start, game.turn)))))
      ensures handler.network.closed == old(handler.network.closed)
      ensures old(Valid()) ==> Valid()
    {
      if gameId !in games {
        return Err(NotFound);
      }
      var game := games[gameId];
      if game.status != Joined {
        return Err(DtoErrors.BadRequest2(MsgStatusInvalid, InvalidGameStatus));
      }
      var shipsOf := BuildShips(indexes);
      if shipsOf.Err? {
        return Err(shipsOf.error);
      }
      var ships := shipsOf.value;
      var placed := Place(game, userId, ships, now);
      if placed.Err? {
        return Err(placed.error);
      }
      var p := placed.value;
      assert PlanSubmit(old(games), gameId, userId, indexes, now) == Ok(p);
      var locations := FleetCells(indexes, ships);
      var e := InitialShipsRecord(game.id, p.mover, locations, now);
      StoreMove(gameId, p.game, e);
      assert log[0] == e && log[1..] == old(log);
      if p.game.status == Start {
        var sendErr := AnnounceStart(p.game, p.otherSide);
        if sendErr.Some? {
          return Err(sendErr.value);
        }
      }
      return Ok((p.game.status, p.game.turn));
    }

    /** ChangeTurn, lines 297-370. */
    method ChangeTurn(userId: Id, gameId: Id, now: int) returns (err: Option<GoError>)
      modifies this, handler.network
      ensures var p := PlanTurnChange(old(games), old(log), gameId, userId, now);
              (p.Err? ==> err == Some(p.error) && games == old(games) && log == old(log) &&
                          handler.network.outbox == old(handler.network.outbox)) &&
              (p.Ok? && p.value.winner.Some? ==>
                 var ended := EndGameDispatch(handler.registry.entries, Masked(Masked(gameId, handler.rng), handler.rng),
                                              old(handler.network.closed), old(handler.network.outbox),
                                              Message(Sockets.EndGame, DtoGame.EndGameEvent(Masked(gameId, handler.rng),
                                                                                            Masked(p.value.winner.value, handler.rng))));
                 log == old(log) && handler.network.outbox == ended.1 &&
                 (ended.0.Some? ==> err == ended.0 && games == old(games)) &&
                 (ended.0.None? ==> err.None? && games == old(games)[p.value.game.id := p.value.game])) &&
              (p.Ok? && p.value.winner.None? ==>
                 var sent := Dispatch(RouteOf(handler.registry.entries, Masked(gameId, handler.rng), Masked(p.value.otherSide, handler.rng), handler.rng),
                                      old(handler.network.closed), old(handler.network.outbox),
                                      Message(Sockets.ChangeTurn, DtoGame.GameChangeTurnEvent(Masked(gameId, handler.rng),
                                                                                             Masked(p.value.otherSide, handler.rng))), true);
                 games == old(games)[p.value.game.id := p.value.game] &&
                 log == [PlainEvent(EventType.ChangeTurn, p.value.game.id, p.value.mover, now)] + old(log) &&
                 handler.network.outbox == sent.1 && err == PanicOnly(sent.0))
      ensures handler.network.closed == old(handler.network.closed)
      ensures old(Valid()) ==> Valid()
    {
      var planned := PlanTurnChange(games, log, gameId, userId, now);
      if planned.Err? {
        return Some(planned.error);
      }
      var p := planned.value;
      if p.winner.Some? {
        var maskedGame := MaskId(gameId, handler.rng);
        var maskedWinner := MaskId(p.winner.value, handler.rng);
        var endErr := handler.EndGame(maskedGame, maskedWinner);
        if endErr.Some? {
          return endErr;
        }
      }
      err := None;
      if p.game.status == Finished {
        StoreGame(gameId, p.game);
      } else {
        StoreMove(gameId, p.game, PlainEvent(EventType.ChangeTurn, p.game.id, p.mover, now));
        var maskedGame := MaskId(gameId, handler.rng);
        var maskedOther := MaskId(p.otherSide, handler.rng);
        var sendErr := handler.ChangeTurn(maskedGame, maskedOther);
        err := PanicOnly(sendErr);
      }
    }

    /** MoveShip, lines 372-422: the other side learns which cell the ship
        left; the router's error is returned. */
    method MoveShip(userId: Id, gameId: Id, from: int, to: int, now: int) returns (err: Option<GoError>)
      modifies this, handler.network
      ensures var p := PlanMove(board, old(games), gameId, userId, from, to, now);
              (p.Err? ==> err == Some(p.error) && games == old(games) && log == old(log) &&
                          handler.network.outbox == old(handler.network.outbox)) &&
              (p.Ok? ==>
                 var sent := Dispatch(RouteOf(handler.registry.entries, Masked(gameId, handler.rng), Masked(p.value.otherSide, handler.rng), handler.rng),
                                      old(handler.network.closed), old(handler.network.outbox),
                                      Message(Sockets.ShipMoved, DtoGame.ShipMovedEvent(Masked(gameId, handler.rng),
                                                                                       Masked(p.value.otherSide, handler.rng), from)), false);
                 games == old(games)[p.value.game.id := p.value.game] &&
                 log == [MoveRecord(p.value.game.id, p.value.mover, from, to, now)] + old(log) &&
                 handler.network.outbox == sent.1 && err == sent.0)
      ensures handler.network.closed == old(handler.network.closed)
      ensures old(Valid()) ==> Valid()
    {
      var planned := PlanMove(board, games, gameId, userId, from, to, now);
      if planned.Err? {
        return Some(planned.error);
      }
      var p := planned.value;
      var e := MoveRecord(p.game.id, p.mover, from, to, now);
      StoreMove(gameId, p.game, e);
      var maskedGame := MaskId(gameId, handler.rng);
      var maskedOther := MaskId(p.otherSide, handler.rng);
      err := handler.MoveShip(maskedGame, maskedOther, from);
    }

    /** Reveal, lines 443-483: the revealed ship cells go back to the
        requester and, with the neighbourhood of the cell, to the other side. */
    method Reveal(userId: Id, gameId: Id, index: int, now: int) returns (res: Result<seq<int>>)
      modifies this, handler.network
      ensures var p := PlanReveal(board, old(games), gameId, userId, index, now);
              (p.Err? ==> res == Err(p.error) && games == old(games) && log == old(log) &&
                          handler.network.outbox == old(handler.network.outbox)) &&
              (p.Ok? ==>
                 var sent := Dispatch(RouteOf(handler.registry.entries, Masked(gameId, handler.rng), Masked(p.value.otherSide, handler.rng), handler.rng),
                                      old(handler.network.closed), old(handler.network.outbox),
                                      Message(Sockets.Reveal, DtoGame.RevealEvent(Masked(p.value.otherSide, handler.rng), Masked(gameId, handler.rng),
                                                                                 p.value.revealed, board.neighbors(index))), false);
                 games == old(games)[p.value.game.id := p.value.game] &&
                 log == [RevealRecord(p.value.game.id, p.value.mover, board.neighbors(index), p.value.revealed, now)] + old(log) &&
                 handler.network.outbox == sent.1 &&
                 res == (if PanicOnly(sent.0).Some? then Err(sent.0.value) else Ok(p.value.revealed)))
      ensures handler.network.closed == old(handler.network.closed)
      ensures old(Valid()) ==> Valid()
    {
      var planned := PlanReveal(board, games, gameId, userId, index, now);
      if planned.Err? {
        return Err(planned.error);
      }
      var p := planned.value;
      var e := RevealRecord(p.game.id, p.mover, board.neighbors(index), p.revealed, now);
      StoreMove(gameId, p.game, e);
      var maskedOther := MaskId(p.otherSide, handler.rng);
      var maskedGame := MaskId(gameId, handler.rng);
      var sendErr := handler.Reveal(maskedOther, maskedGame, p.revealed, board.neighbors(index));
      if PanicOnly(sendErr).Some? {
        return Err(sendErr.value);
      }
      return Ok(p.revealed);
    }

    /** Explode, lines 503-560: the shot is logged and stored, the other side
        is told, and if the shot ended the game both sides learn the winner. */
    method Explode(userId: Id, gameId: Id, index: int, now: int) returns (res: Result<bool>)
      modifies this, handler.network
      ensures var p := PlanExplode(board, old(games), gameId, userId, index, now);
              (p.Err? ==> res == Err(p.error) && games == old(games) && log == old(log) &&
                          handler.network.outbox == old(handler.network.outbox)) &&
              (p.Ok? ==>
                 games == old(games)[p.value.game.id := p.value.game] &&
                 log == [ExplosionRecord(p.value.game.id, p.value.mover, index, !p.value.hasShip, now)] + old(log) &&
                 var sent := Dispatch(RouteOf(handler.registry.entries, Masked(gameId, handler.rng), Masked(p.value.otherSide, handler.rng), handler.rng),
                                      old(handler.network.closed), old(handler.network.outbox),
                                      Message(Sockets.Explosion, DtoGame.ExplosionEvent(Masked(gameId, handler.rng),
                                                                                       Masked(p.value.otherSide, handler.rng), index)), false);
                 var game := p.value.game;
                 (PanicOnly(sent.0).Some? ==> res == Err(sent.0.value) && handler.network.outbox == sent.1) &&
                 (PanicOnly(sent.0).None? && (game.status != Finished || (game.winnerUser.Some? && IsZero(game.winnerUser.value))) ==>
                    res == Ok(p.value.hasShip) && handler.network.outbox == sent.1) &&
                 (PanicOnly(sent.0).None? && game.status == Finished && game.winnerUser.None? ==>
                    res == Err(NilDeref) && handler.network.outbox == sent.1) &&
                 (PanicOnly(sent.0).None? && game.status == Finished && game.winnerUser.Some? && !IsZero(game.winnerUser.value) ==>
                    var ended := EndGameDispatch(handler.registry.entries, Masked(Masked(gameId, handler.rng), handler.rng),
                                                 old(handler.network.closed), sent.1,
                                                 Message(Sockets.EndGame, DtoGame.EndGameEvent(Masked(gameId, handler.rng),
                                                                                               Masked(game.winnerUser.value, handler.rng))));
                    handler.network.outbox == ended.1 &&
                    res == (if ended.0.Some? then Err(ended.0.value) else Ok(p.value.hasShip))))
      ensures handler.network.closed == old(handler.network.closed)
      ensures old(Valid()) ==> Valid()
    {
      var planned := PlanExplode(board, games, gameId, userId, index, now);
      if planned.Err? {
        return Err(planned.error);
      }
      var p := planned.value;
      var e := ExplosionRecord(p.game.id, p.mover, index, !p.hasShip, now);
      StoreMove(gameId, p.game, e);
      var maskedGame := MaskId(gameId, handler.rng);
      var maskedOther := MaskId(p.otherSide, handler.rng);
      var sendErr := handler.Explosion(maskedGame, maskedOther, index);
      if PanicOnly(sendErr).Some? {
        return Err(sendErr.value);
      }
      if p.game.status == Finished {
        if p.game.winnerUser.None? {
          return Err(NilDeref);
        }
        if !IsZero(p.game.winnerUser.value) {
          var maskedGame2 := MaskId(gameId, handler.rng);
          var maskedWinner := MaskId(p.game.winnerUser.value, handler.rng);
          var endErr := handler.EndGame(maskedGame2, maskedWinner);
          if endErr.Some? {
            return Err(endErr.value);
          }
        }
      }
      return Ok(p.hasShip);
    }

    /** SocketConnect, lines 590-645, after the payload has been unmasked. */
    method SocketConnect(gameId: Id, userId: Id, socket: Option<Handle>) returns (err: Option<GoError>)
      modifies handler.registry, handler.network
      ensures (err, handler.registry.entries, handler.network.outbox) ==
              SocketConnectOutcome(games, old(handler.registry.entries), old(handler.network.closed), old(handler.network.outbox),
                                   gameId, userId, socket, handler.rng)
      ensures handler.network.closed == old(handler.network.closed)
    {
      if gameId !in games {
        return Some(NotFound);
      }
      var game := games[gameId];
      var registry := handler.registry;
      if gameId !in registry.entries {
        registry.entries := registry.entries[gameId := EmptyGameData];
      }
      var data := registry.entries[gameId];
      assert registry.entries == old(registry.entries)[gameId := ConnectionEvents.EntryOf(old(registry.entries), gameId)];
      var side := ConnectionEvents.SideOf(ConnectionEvents.GameSides(game.side1User, game.side2User), userId);
      if side == ConnectionEvents.Stranger {
        return Some(DtoErrors.BadRequest1(MsgSocketStranger));
      }
      data := ConnectionEvents.Connected(data, side, userId, socket);
      if game.status == Joined {
        var other := if side == ConnectionEvents.Side1 then game.side2User else game.side1User;
        if other.None? {
          return Some(NilDeref);
        }
        var maskedGame := MaskId(game.id, handler.rng);
        var maskedOther := MaskId(other.value, handler.rng);
        var sendErr := handler.GameConnect(maskedGame, maskedOther);
        if PanicOnly(sendErr).Some? {
          return sendErr;
        }
      }
      registry.entries := registry.entries[game.id := data];
      return None;
    }
  }
}
