/** model/game.go and model/game_state.go, the older revision of the board:
    a 20-wide grid of 200 cells per side.  For each side, a ground map says
    which cells are still hidden and a ships map says which cells hold a
    living ship.  Go maps are reference values (the Game methods with value
    receivers still change them), so each map is a heap object here. */
module Board {
  import opened Errors
  import BattleErrors
  import opened Utils

  /** A Go `map[int]bool`.  Reading a missing key yields false; writing
      through a nil map panics, which is why fields hold `GoMap?`. */
  class GoMap {
    var m: map<int, bool>

    constructor ()
      ensures m == map[]
    {
      m := map[];
    }
  }

  /** Reading `m[k]` in Go: the zero value false when the map is nil or k is missing. */
  function Lookup(m: map<int, bool>, k: int): bool {
    k in m && m[k]
  }

  /** The keys whose entry is true: the living ships of a ships map. */
  function TrueKeys(m: map<int, bool>): set<int> {
    set k | k in m && m[k]
  }

  datatype GameStatus = Init | Choose | Start | Finished

  /** GameState: four map references. */
  datatype GameState = GameState(side1: GoMap?, side1Ships: GoMap?, side2: GoMap?, side2Ships: GoMap?)

  /** model.Game of the older revision; times are seconds, pointers are Options. */
  datatype Game = Game(
    id: Id,
    state: GameState,
    status: GameStatus,
    side1: Option<Id>,
    side2: Option<Id>,
    turn: int,
    lastMoveTime: Option<int>,
    moveTimeoutSec: int,
    createDate: int,
    winner: Option<Id>)

  const Width := 20
  const Cells := 200

  // ---------------------------------------------------------------- neighbours

  /** findNeighborIndexes: the cell itself and three others, later corrections
      overriding earlier ones. */
  function FindNeighborIndexes(index: int): (r: seq<int>)
    ensures |r| == 4 && r[0] == index
  {
    var lastColumn := index > 0 && (index + 1) % Width == 0;
    var lastRow := index + 1 > 9 * Width;
    if index == 199 then [index, 198, 199 - 20, 199 - 21]
    else if lastRow then [index, index + 1, index - 19, index - 20]
    else if lastColumn then [index, index - 1, index + 19, index + 20]
    else [index, index + 1, index + 20, index + 21]
  }

  /** The branches: plain cells take right, below and below-right; the last
      column looks left; the last row looks up; the corner 199 looks up and left. */
  lemma NeighborBranches(index: int)
    requires 0 <= index < Cells
    ensures index < 180 && index % 20 != 19 ==>
              FindNeighborIndexes(index) == [index, index + 1, index + 20, index + 21]
    ensures index < 180 && index % 20 == 19 ==>
              FindNeighborIndexes(index) == [index, index - 1, index + 19, index + 20]
    ensures 180 <= index < 199 ==>
              FindNeighborIndexes(index) == [index, index + 1, index - 19, index - 20]
    ensures index == 199 ==> FindNeighborIndexes(index) == [199, 198, 179, 178]
  {
  }

  /** Every neighbour of a board cell is a board cell. */
  lemma NeighborBounds(index: int)
    requires 0 <= index < Cells
    ensures forall j :: 0 <= j < 4 ==> 0 <= FindNeighborIndexes(index)[j] < Cells
  {
    NeighborBranches(index);
  }

  /** The top-left corner of the 2x2 block findNeighborIndexes describes. */
  function BlockCorner(index: int): int {
    var row := index / Width;
    var col := index % Width;
    Width * (if row < 9 then row else 8) + (if col < 19 then col else 18)
  }

  /** The four neighbours are distinct and form the 2x2 block whose top-left
      corner is BlockCorner: rows and columns differ by at most one. */
  lemma NeighborBlock(index: int)
    requires 0 <= index < Cells
    ensures var r := FindNeighborIndexes(index);
            r[0] != r[1] && r[0] != r[2] && r[0] != r[3] && r[1] != r[2] && r[1] != r[3] && r[2] != r[3]
    ensures var r := FindNeighborIndexes(index);
            var a := BlockCorner(index);
            {r[0], r[1], r[2], r[3]} == {a, a + 1, a + 20, a + 21}
    ensures var a := BlockCorner(index);
            0 <= a && a / Width < 9 && a % Width < 19
  {
    NeighborBranches(index);
  }

  // ---------------------------------------------------------------- moving a ship

  /** moveShipSide*: the new ships map, or the error and no change.  A ship
      that is missing or false cannot move; the target must be present and
      hidden in the side's ground. */
  function MoveOutcome(ships: map<int, bool>, ground: map<int, bool>, ship: int, loc: int): (r: Result<map<int, bool>>)
    ensures r.Err? <==> !Lookup(ships, ship) || !Lookup(ground, loc)
    ensures !Lookup(ships, ship) ==>
              r == Err(BattleErrors.BadRequest2(MsgAlreadyDestroyed, ShipInvalidMove))
    ensures Lookup(ships, ship) && !Lookup(ground, loc) ==>
              r == Err(BattleErrors.BadRequest2(MsgRevealedLocation, ShipInvalidMove))
    ensures r.Ok? ==> Lookup(r.value, loc) && (ship != loc ==> ship !in r.value) &&
                      forall k :: k != ship && k != loc ==>
                        ((k in r.value <==> k in ships) && (k in ships ==> r.value[k] == ships[k]))
  {
    if Lookup(ships, ship) then
      if Lookup(ground, loc) then Ok((ships - {ship})[loc := true])
      else Err(BattleErrors.BadRequest2(MsgRevealedLocation, ShipInvalidMove))
    else Err(BattleErrors.BadRequest2(MsgAlreadyDestroyed, ShipInvalidMove))
  }

  /** A move keeps the number of living ships, unless the target already
      held another living ship: then the two merge and one is lost. */
  lemma MoveShipCount(ships: map<int, bool>, ground: map<int, bool>, ship: int, loc: int)
    requires MoveOutcome(ships, ground, ship, loc).Ok?
    ensures var after := MoveOutcome(ships, ground, ship, loc).value;
            |TrueKeys(after)| == |TrueKeys(ships)| - (if loc != ship && Lookup(ships, loc) then 1 else 0)
  {
    var after := (ships - {ship})[loc := true];
    var before := TrueKeys(ships);
    assert ship in before;
    assert TrueKeys(after) == (before - {ship}) + {loc};
    if loc == ship {
      assert TrueKeys(after) == before;
    } else if Lookup(ships, loc) {
      assert loc in before - {ship};
      assert TrueKeys(after) == before - {ship};
    } else {
      assert loc !in before - {ship};
    }
  }

  /** The shared body of moveShipSide1 and moveShipSide2 over one side's maps. */
  method MoveShip(ships: GoMap?, ground: GoMap?, ship: int, loc: int) returns (err: Option<GoError>)
    modifies ships
    ensures var outcome := MoveOutcome(if ships == null then map[] else old(ships.m),
                                       if ground == null then map[] else old(ground.m), ship, loc);
            (outcome.Err? <==> err.Some?) &&
            (outcome.Err? ==> err.value == outcome.error && (ships != null ==> ships.m == old(ships.m))) &&
            (outcome.Ok? ==> ships != null && ships.m == outcome.value)
  {
    var exist := ships != null && Lookup(ships.m, ship);
    if exist {
      var val := ground != null && Lookup(ground.m, loc);
      if val {
        ships.m := ships.m - {ship};
        ships.m := ships.m[loc := true];
      } else {
        return Some(BattleErrors.BadRequest2(MsgRevealedLocation, ShipInvalidMove));
      }
    } else {
      return Some(BattleErrors.BadRequest2(MsgAlreadyDestroyed, ShipInvalidMove));
    }
    return None;
  }

  /** moveShipSide1: moves a ship of side 1 over side 1's ground. */
  method MoveShipSide1(g: Game, ship: int, loc: int) returns (err: Option<GoError>)
    modifies g.state.side1Ships
    ensures var st := g.state;
            var outcome := MoveOutcome(if st.side1Ships == null then map[] else old(st.side1Ships.m),
                                       if st.side1 == null then map[] else old(st.side1.m), ship, loc);
            (outcome.Err? <==> err.Some?) &&
            (outcome.Err? ==> err.value == outcome.error && (st.side1Ships != null ==> st.side1Ships.m == old(st.side1Ships.m))) &&
            (outcome.Ok? ==> st.side1Ships != null && st.side1Ships.m == outcome.value)
  {
    err := MoveShip(g.state.side1Ships, g.state.side1, ship, loc);
  }

  /** moveShipSide2: moves a ship of side 2 over side 2's ground. */
  method MoveShipSide2(g: Game, ship: int, loc: int) returns (err: Option<GoError>)
    modifies g.state.side2Ships
    ensures var st := g.state;
            var outcome := MoveOutcome(if st.side2Ships == null then map[] else old(st.side2Ships.m),
                                       if st.side2 == null then map[] else old(st.side2.m), ship, loc);
            (outcome.Err? <==> err.Some?) &&
            (outcome.Err? ==> err.value == outcome.error && (st.side2Ships != null ==> st.side2Ships.m == old(st.side2Ships.m))) &&
            (outcome.Ok? ==> st.side2Ships != null && st.side2Ships.m == outcome.value)
  {
    err := MoveShip(g.state.side2Ships, g.state.side2, ship, loc);
  }

  // ---------------------------------------------------------------- revealing

  /** RevealSlot1/RevealSlot2 over one ships map.  The loop ranges over the
      positions 0..3 of the neighbour array, not over its values, so keys
      0..3 are cleared whatever the index; the slot is read back right after
      being cleared, so nothing is ever reported.  A nil map panics. */
  method RevealSlot(ships: GoMap?, index: int) returns (r: Result<seq<int>>)
    modifies ships
    ensures ships == null <==> r.Err?
    ensures r.Err? ==> r.error.Panic?
    ensures r.Ok? ==> r.value == [] && ships != null &&
                      ships.m.Keys == old(ships.m).Keys + {0, 1, 2, 3} &&
                      (forall k :: 0 <= k < 4 ==> !ships.m[k]) &&
                      (forall k :: k in old(ships.m) && !(0 <= k < 4) ==> ships.m[k] == old(ships.m)[k])
  {
    var neighborIndexes := FindNeighborIndexes(index);
    var notEmptySlots: seq<int> := [];
    if ships == null {
      // the first write of the loop panics
      return Err(Panic("assignment to entry in nil map"));
    }
    for i := 0 to |neighborIndexes|
      invariant ships != null
      invariant forall k :: k in ships.m <==> k in old(ships.m) || 0 <= k < i
      invariant forall k :: 0 <= k < i ==> !ships.m[k]
      invariant forall k :: k in old(ships.m) && !(0 <= k < i) ==> ships.m[k] == old(ships.m)[k]
      invariant notEmptySlots == []
    {
      ships.m := ships.m[i := false];
      if Lookup(ships.m, i) {
        notEmptySlots := notEmptySlots + [i];
      }
    }
    return Ok(notEmptySlots);
  }

  method RevealSlot1(g: Game, index: int) returns (r: Result<seq<int>>)
    modifies g.state.side1Ships
    ensures var ships := g.state.side1Ships;
            (ships == null <==> r.Err?) &&
            (r.Ok? ==> r.value == [] && ships != null &&
                       ships.m.Keys == old(ships.m).Keys + {0, 1, 2, 3} &&
                       (forall k :: 0 <= k < 4 ==> !ships.m[k]) &&
                       (forall k :: k in old(ships.m) && !(0 <= k < 4) ==> ships.m[k] == old(ships.m)[k]))
  {
    r := RevealSlot(g.state.side1Ships, index);
  }

  method RevealSlot2(g: Game, index: int) returns (r: Result<seq<int>>)
    modifies g.state.side2Ships
    ensures var ships := g.state.side2Ships;
            (ships == null <==> r.Err?) &&
            (r.Ok? ==> r.value == [] && ships != null &&
                       ships.m.Keys == old(ships.m).Keys + {0, 1, 2, 3} &&
                       (forall k :: 0 <= k < 4 ==> !ships.m[k]) &&
                       (forall k :: k in old(ships.m) && !(0 <= k < 4) ==> ships.m[k] == old(ships.m)[k]))
  {
    r := RevealSlot(g.state.side2Ships, index);
  }

  // ---------------------------------------------------------------- exploding

  /** The ships map after an explosion at index: the entry goes iff it held a ship. */
  function Exploded(m: map<int, bool>, index: int): map<int, bool> {
    if Lookup(m, index) then m - {index} else m
  }

  /** An explosion removes exactly the hit ship and touches nothing else. */
  lemma ExplodedEffect(m: map<int, bool>, index: int)
    ensures Lookup(m, index) <==> index in m && index !in Exploded(m, index)
    ensures forall k :: k != index ==>
              ((k in Exploded(m, index) <==> k in m) && (k in m ==> Exploded(m, index)[k] == m[k]))
    ensures TrueKeys(Exploded(m, index)) == TrueKeys(m) - {index}
    ensures |TrueKeys(Exploded(m, index))| == |TrueKeys(m)| - (if Lookup(m, index) then 1 else 0)
  {
    if Lookup(m, index) {
      assert index in TrueKeys(m);
    } else {
      assert TrueKeys(m) - {index} == TrueKeys(m);
    }
  }

  /** A second explosion on the same cell finds nothing. */
  lemma ExplodedIdempotent(m: map<int, bool>, index: int)
    ensures Exploded(Exploded(m, index), index) == Exploded(m, index)
  {
  }

  /** ExplodeSide1/ExplodeSide2 over one ships map.  Go's receiver is a copy
      of the Game, so the Finished status and the winner it sets on the copy
      are lost: the caller's Game is a value and cannot change.  Reading and
      deleting through a nil map do nothing. */
  method Explode(g: Game, ships: GoMap?, winner: Option<Id>, index: int)
    modifies ships
    ensures ships != null ==> ships.m == Exploded(old(ships.m), index)
  {
    var receiver := g;
    if ships != null && Lookup(ships.m, index) {
      ships.m := ships.m - {index};
      if |ships.m| == 0 {
        receiver := receiver.(status := Finished, winner := winner);
      }
    }
  }

  method ExplodeSide1(g: Game, index: int)
    modifies g.state.side1Ships
    ensures g.state.side1Ships != null ==> g.state.side1Ships.m == Exploded(old(g.state.side1Ships.m), index)
  {
    Explode(g, g.state.side1Ships, g.side2, index);
  }

  method ExplodeSide2(g: Game, index: int)
    modifies g.state.side2Ships
    ensures g.state.side2Ships != null ==> g.state.side2Ships.m == Exploded(old(g.state.side2Ships.m), index)
  {
    Explode(g, g.state.side2Ships, g.side1, index);
  }

  // ---------------------------------------------------------------- creation

  /** The map `for i := range xs { m[i] = true }` builds: keys 0..n-1, all true. */
  ghost predicate PositionKeys(m: map<int, bool>, n: nat) {
    (forall k :: k in m <==> 0 <= k < n) && (forall k :: k in m ==> m[k])
  }

  /** CreateGameState: four fresh maps; the ships maps are keyed by the
      positions of the given slices (their values are never read), and both
      grounds hold cells 0..199, all hidden. */
  method CreateGameState(side1ShipsIndexes: seq<int>, side2ShipsIndexes: seq<int>) returns (s: GameState)
    ensures s.side1 != null && s.side1Ships != null && s.side2 != null && s.side2Ships != null
    ensures fresh(s.side1) && fresh(s.side1Ships) && fresh(s.side2) && fresh(s.side2Ships)
    ensures s.side1 != s.side2 && s.side1 != s.side1Ships && s.side1 != s.side2Ships &&
            s.side2 != s.side1Ships && s.side2 != s.side2Ships && s.side1Ships != s.side2Ships
    ensures PositionKeys(s.side1Ships.m, |side1ShipsIndexes|)
    ensures PositionKeys(s.side2Ships.m, |side2ShipsIndexes|)
    ensures PositionKeys(s.side1.m, Cells) && PositionKeys(s.side2.m, Cells)
  {
    var side1Ships := new GoMap();
    var side2Ships := new GoMap();
    var side1 := new GoMap();
    var side2 := new GoMap();
    for i := 0 to |side1ShipsIndexes|
      invariant PositionKeys(side1Ships.m, i)
      invariant side2Ships.m == map[] && side1.m == map[] && side2.m == map[]
    {
      side1Ships.m := side1Ships.m[i := true];
    }
    for i := 0 to |side2ShipsIndexes|
      invariant PositionKeys(side2Ships.m, i)
      invariant PositionKeys(side1Ships.m, |side1ShipsIndexes|)
      invariant side1.m == map[] && side2.m == map[]
    {
      side2Ships.m := side2Ships.m[i := true];
    }
    for i := 0 to Cells
      invariant PositionKeys(side1.m, i) && PositionKeys(side2.m, i)
      invariant PositionKeys(side1Ships.m, |side1ShipsIndexes|)
      invariant PositionKeys(side2Ships.m, |side2ShipsIndexes|)
    {
      side1.m := side1.m[i := true];
      side2.m := side2.m[i := true];
    }
    s := GameState(side1, side1Ships, side2, side2Ships);
  }

  /** A fresh ships map holds one living ship per given index, so the counts
      of the two sides depend only on the lengths of their own inputs. */
  lemma {:induction false} CreatedShipCount(m: map<int, bool>, n: nat)
    requires PositionKeys(m, n)
    ensures TrueKeys(m) == m.Keys
    ensures |TrueKeys(m)| == n
  {
    if n > 0 {
      var smaller := m - {n - 1};
      CreatedShipCount(smaller, n - 1);
      assert TrueKeys(m) == TrueKeys(smaller) + {n - 1};
    } else {
      assert m == map[] by {
        forall k | k in m
          ensures false
        {
        }
      }
    }
  }
}
