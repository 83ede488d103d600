/** The farm state engine: the initial state and the five transitions
    (move, select a tool, use the tool on a tile, advance the day, buy
    seeds). Every transition maps the previous state, and an intent, to a
    new state value; the previous value is never changed. */
module GameEngine {
  import opened GameTypes

  const FullEnergy: int := 100
  const FullWater: int := 100
  /** The hour at which the game and every new day start. */
  const MorningHour: int := 6

  function Min(a: int, b: int): int { if a <= b then a else b }
  function Max(a: int, b: int): int { if a >= b then a else b }

  predicate InGrid(p: Position)
  {
    0 <= p.x < GridWidth && 0 <= p.y < GridHeight
  }

  /** The grid has GridHeight rows of GridWidth tiles each. */
  predicate Shaped(tiles: seq<seq<Tile>>)
  {
    |tiles| == GridHeight && forall y :: 0 <= y < |tiles| ==> |tiles[y]| == GridWidth
  }

  /** The tile invariant: a crop is present exactly when the stage is
      positive, a crop grows only on plowed soil, and only plowed soil is
      ever watered. */
  predicate TileOk(t: Tile)
  {
    && (t.cropStage > 0 <==> t.crop.Some?)
    && (t.crop.Some? ==> t.isPlowed)
    && (t.isWatered ==> t.isPlowed)
  }

  predicate PlayerOk(p: Player)
  {
    && InGrid(p.position)
    && 0 <= p.energy <= FullEnergy
    && 0 <= p.inventory.water <= FullWater
    && p.money >= 0
    && p.inventory.seeds.NonNegative()
    && p.inventory.harvested.NonNegative()
  }

  /** The invariant of every state the engine produces from its initial state. */
  predicate Valid(s: GameState)
  {
    && s.gridWidth == GridWidth
    && s.gridHeight == GridHeight
    && Shaped(s.tiles)
    && (forall y, x :: 0 <= y < |s.tiles| && 0 <= x < |s.tiles[y]| ==>
          s.tiles[y][x].position == Position(x, y) && TileOk(s.tiles[y][x]))
    && PlayerOk(s.player)
    && s.day >= 1
  }

  // ---------------------------------------------------------------------
  // The initial state

  function EmptyTile(x: int, y: int): Tile
  {
    Tile(Position(x, y), false, false, None, 0)
  }

  /** Builds the grid row by row; every tile starts empty and knows its own position. */
  method CreateInitialTiles() returns (tiles: seq<seq<Tile>>)
    ensures Shaped(tiles)
    ensures forall y, x :: 0 <= y < GridHeight && 0 <= x < GridWidth ==> tiles[y][x] == EmptyTile(x, y)
  {
    tiles := [];
    var y := 0;
    while y < GridHeight
      invariant 0 <= y <= GridHeight
      invariant |tiles| == y
      invariant forall j :: 0 <= j < y ==> |tiles[j]| == GridWidth
      invariant forall j, i :: 0 <= j < y && 0 <= i < GridWidth ==> tiles[j][i] == EmptyTile(i, j)
    {
      var row: seq<Tile> := [];
      var x := 0;
      while x < GridWidth
        invariant 0 <= x <= GridWidth
        invariant |row| == x
        invariant forall i :: 0 <= i < x ==> row[i] == EmptyTile(i, y)
      {
        row := row + [EmptyTile(x, y)];
        x := x + 1;
      }
      tiles := tiles + [row];
      y := y + 1;
    }
  }

  function InitialPlayer(): (p: Player)
    ensures PlayerOk(p)
    ensures p.position == Position(8, 6) && p.direction == Down && p.currentTool == Hoe
    ensures p.energy == FullEnergy && p.inventory.water == FullWater && p.money == 100
    ensures forall c :: p.inventory.harvested.Get(c) == 0
    ensures p.inventory.seeds.Get(Wheat) == 10 && p.inventory.seeds.Get(Carrot) == 5
    ensures p.inventory.seeds.Get(Tomato) == 3 && p.inventory.seeds.Get(Corn) == 2
    ensures p.inventory.seeds.Get(Potato) == 5
  {
    Player(
      Position(8, 6), Down, Hoe,
      Inventory(CropCounts(10, 5, 3, 2, 5), CropCounts(0, 0, 0, 0, 0), FullWater),
      FullEnergy, 100)
  }

  method InitialGameState() returns (s: GameState)
    ensures Valid(s)
    ensures s.player == InitialPlayer()
    ensures s.selectedTile == None && s.day == 1 && s.time == MorningHour
    ensures forall y, x :: 0 <= y < GridHeight && 0 <= x < GridWidth ==> s.tiles[y][x] == EmptyTile(x, y)
  {
    var tiles := CreateInitialTiles();
    s := GameState(InitialPlayer(), tiles, GridWidth, GridHeight, None, 1, MorningHour);
  }

  // ---------------------------------------------------------------------
  // Movement and tool selection

  /** The position one step away in direction d, before any clamping. */
  function Neighbour(p: Position, d: Direction): (q: Position)
    ensures (q.x == p.x && (q.y == p.y - 1 || q.y == p.y + 1))
         || (q.y == p.y && (q.x == p.x - 1 || q.x == p.x + 1))
  {
    match d
    case Up => p.(y := p.y - 1)
    case Down => p.(y := p.y + 1)
    case Left => p.(x := p.x - 1)
    case Right => p.(x := p.x + 1)
  }

  /** A step in direction d, clamped to the grid on the axis of the step.
      Facing always becomes d; nothing else changes. From a position in the
      grid the player reaches the neighbour if it lies in the grid and stays
      put otherwise. */
  function Move(s: GameState, d: Direction): (r: GameState)
    ensures r == s.(player := s.player.(position := r.player.position, direction := d))
    ensures (d == Up || d == Down) ==> r.player.position.x == s.player.position.x
    ensures (d == Left || d == Right) ==> r.player.position.y == s.player.position.y
    ensures InGrid(s.player.position) ==>
              r.player.position == (if InGrid(Neighbour(s.player.position, d))
                                    then Neighbour(s.player.position, d)
                                    else s.player.position)
  {
    var p := s.player.position;
    var q := match d
      case Up => p.(y := Max(0, p.y - 1))
      case Down => p.(y := Min(GridHeight - 1, p.y + 1))
      case Left => p.(x := Max(0, p.x - 1))
      case Right => p.(x := Min(GridWidth - 1, p.x + 1));
    s.(player := s.player.(position := q, direction := d))
  }

  /** Updates a local copy of the position, as the key handler does. */
  method MovePlayer(s: GameState, d: Direction) returns (r: GameState)
    ensures r == Move(s, d)
  {
    var newPos := s.player.position;
    match d {
      case Up => newPos := newPos.(y := Max(0, newPos.y - 1));
      case Down => newPos := newPos.(y := Min(GridHeight - 1, newPos.y + 1));
      case Left => newPos := newPos.(x := Max(0, newPos.x - 1));
      case Right => newPos := newPos.(x := Min(GridWidth - 1, newPos.x + 1));
    }
    r := s.(player := s.player.(position := newPos, direction := d));
  }

  /** Replaces the current tool, unconditionally; nothing else changes. */
  function SelectTool(s: GameState, tool: ToolType): (r: GameState)
    ensures r.player.currentTool == tool
    ensures r == s.(player := r.player)
    ensures r.player == s.player.(currentTool := r.player.currentTool)
  {
    s.(player := s.player.(currentTool := tool))
  }

  // ---------------------------------------------------------------------
  // Using the current tool on a tile

  /** The tile and the player after a tool use. */
  datatype Effect = Effect(tile: Tile, player: Player)

  /** What a successful use of each tool costs in energy. */
  function EnergyCost(tool: ToolType): int
  {
    match tool
    case WateringCan => 3
    case _ => 5
  }

  /** Whether `tool` does anything on tile t for player p. */
  predicate Enabled(tool: ToolType, t: Tile, p: Player)
  {
    match tool
    case Hoe => !t.isPlowed && p.energy >= 5
    case WateringCan => t.isPlowed && !t.isWatered && p.inventory.water > 0 && p.energy >= 3
    case Seeds => t.isPlowed && t.crop.None? && p.inventory.seeds.Get(Wheat) > 0 && p.energy >= 5
    case Hand => t.crop.Some? && t.cropStage == 3 && p.energy >= 5
  }

  /** The rule table. A tool whose condition fails changes nothing; one
      whose condition holds costs exactly its energy. The seeds tool always
      plants wheat. */
  function ToolEffect(tool: ToolType, t: Tile, p: Player): (e: Effect)
    ensures !Enabled(tool, t, p) ==> e == Effect(t, p)
    ensures Enabled(tool, t, p) ==> e.player.energy == p.energy - EnergyCost(tool)
    ensures e.tile.position == t.position
    ensures e.tile.isPlowed == (t.isPlowed || (tool == Hoe && Enabled(tool, t, p)))
    ensures e.player == p.(inventory := e.player.inventory, energy := e.player.energy, money := e.player.money)
  {
    if !Enabled(tool, t, p) then Effect(t, p)
    else
      match tool
      case Hoe =>
        Effect(t.(isPlowed := true), p.(energy := p.energy - 5))
      case WateringCan =>
        Effect(t.(isWatered := true),
               p.(inventory := p.inventory.(water := p.inventory.water - 1), energy := p.energy - 3))
      case Seeds =>
        var seeds := p.inventory.seeds;
        Effect(t.(crop := Some(Wheat), cropStage := 1),
               p.(inventory := p.inventory.(seeds := seeds.Set(Wheat, seeds.Get(Wheat) - 1)),
                  energy := p.energy - 5))
      case Hand =>
        var c := t.crop.value;
        var harvested := p.inventory.harvested;
        Effect(t.(crop := None, cropStage := 0, isWatered := false),
               p.(inventory := p.inventory.(harvested := harvested.Set(c, harvested.Get(c) + 1)),
                  money := p.money + CropPrice(c),
                  energy := p.energy - 5))
  }

  function TileAt(s: GameState, pos: Position): Tile
    requires Shaped(s.tiles) && InGrid(pos)
  {
    s.tiles[pos.y][pos.x]
  }

  /** The grid with the tile at `pos` replaced by t. */
  function SetTile(tiles: seq<seq<Tile>>, pos: Position, t: Tile): (r: seq<seq<Tile>>)
    requires Shaped(tiles) && InGrid(pos)
    ensures Shaped(r)
    ensures r[pos.y][pos.x] == t
    ensures forall y, x :: 0 <= y < GridHeight && 0 <= x < GridWidth && (x != pos.x || y != pos.y) ==>
              r[y][x] == tiles[y][x]
  {
    tiles[pos.y := tiles[pos.y][pos.x := t]]
  }

  /** The reference definition of a tool use: outside the grid nothing
      happens; inside, the rule table decides the new tile at `pos` and the
      new player. No other tile and no other part of the state changes. */
  function ApplyTool(s: GameState, pos: Position): (r: GameState)
    requires Shaped(s.tiles)
    ensures Shaped(r.tiles)
    ensures !InGrid(pos) ==> r == s
    ensures r == s.(tiles := r.tiles, player := r.player)
    ensures forall y, x :: 0 <= y < GridHeight && 0 <= x < GridWidth && (x != pos.x || y != pos.y) ==>
              r.tiles[y][x] == s.tiles[y][x]
    ensures r == s || r.player.energy == s.player.energy - EnergyCost(s.player.currentTool)
    ensures r.player.position == s.player.position && r.player.currentTool == s.player.currentTool
  {
    if !InGrid(pos) then s
    else
      var t := TileAt(s, pos);
      var e := ToolEffect(s.player.currentTool, t, s.player);
      assert !Enabled(s.player.currentTool, t, s.player) ==> s.tiles[pos.y][pos.x := t] == s.tiles[pos.y];
      s.(tiles := SetTile(s.tiles, pos, e.tile), player := e.player)
  }

  /** Copies the grid, then updates the targeted tile and a copy of the
      player field by field, as the click handler does. */
  method UseTool(s: GameState, pos: Position) returns (r: GameState)
    requires Shaped(s.tiles)
    ensures r == ApplyTool(s, pos)
  {
    var x, y := pos.x, pos.y;
    if x < 0 || x >= GridWidth || y < 0 || y >= GridHeight {
      return s;
    }
    var tile := s.tiles[y][x];
    var newPlayer := s.player;
    match s.player.currentTool {
      case Hoe =>
        if !tile.isPlowed && newPlayer.energy >= 5 {
          tile := tile.(isPlowed := true);
          newPlayer := newPlayer.(energy := newPlayer.energy - 5);
        }
      case WateringCan =>
        if tile.isPlowed && !tile.isWatered && newPlayer.inventory.water > 0 && newPlayer.energy >= 3 {
          tile := tile.(isWatered := true);
          newPlayer := newPlayer.(inventory := newPlayer.inventory.(water := newPlayer.inventory.water - 1));
          newPlayer := newPlayer.(energy := newPlayer.energy - 3);
        }
      case Seeds =>
        if tile.isPlowed && tile.crop.None? && newPlayer.inventory.seeds.wheat > 0 && newPlayer.energy >= 5 {
          tile := tile.(crop := Some(Wheat));
          tile := tile.(cropStage := 1);
          var seeds := newPlayer.inventory.seeds;
          newPlayer := newPlayer.(inventory := newPlayer.inventory.(seeds := seeds.(wheat := seeds.wheat - 1)));
          newPlayer := newPlayer.(energy := newPlayer.energy - 5);
        }
      case Hand =>
        if tile.crop.Some? && tile.cropStage == 3 && newPlayer.energy >= 5 {
          var cropType := tile.crop.value;
          var harvested := newPlayer.inventory.harvested;
          newPlayer := newPlayer.(inventory := newPlayer.inventory.(
                         harvested := harvested.Set(cropType, harvested.Get(cropType) + 1)));
          newPlayer := newPlayer.(money := newPlayer.money + CropPrice(cropType));
          tile := tile.(crop := None);
          tile := tile.(cropStage := 0);
          tile := tile.(isWatered := false);
          newPlayer := newPlayer.(energy := newPlayer.energy - 5);
        }
    }
    var newTiles := s.tiles[y := s.tiles[y][x := tile]];
    r := s.(tiles := newTiles, player := newPlayer);
  }

  // ---------------------------------------------------------------------
  // Advancing the day

  /** One night on one tile: a watered crop below stage 3 grows one stage
      (capped at 3), and the soil dries out. */
  function GrowTile(t: Tile): (u: Tile)
    ensures !u.isWatered
    ensures u == t.(isWatered := false, cropStage := u.cropStage)
    ensures u.cropStage == (if t.crop.Some? && t.isWatered && t.cropStage < 3 then t.cropStage + 1 else t.cropStage)
  {
    var grown := if t.crop.Some? && t.isWatered && t.cropStage < 3
                 then t.(cropStage := Min(3, t.cropStage + 1))
                 else t;
    grown.(isWatered := false)
  }

  function GrowRow(row: seq<Tile>): (r: seq<Tile>)
    ensures |r| == |row|
    ensures forall x :: 0 <= x < |row| ==> r[x] == GrowTile(row[x])
  {
    seq(|row|, x requires 0 <= x < |row| => GrowTile(row[x]))
  }

  /** Every tile has its night, energy and water are refilled, the day
      counter moves on and the clock is set to morning. Money, seeds,
      harvested counts, position, facing and tool are kept. */
  function AdvanceDay(s: GameState): (r: GameState)
    ensures |r.tiles| == |s.tiles|
    ensures forall y :: 0 <= y < |s.tiles| ==> |r.tiles[y]| == |s.tiles[y]|
    ensures forall y, x :: 0 <= y < |s.tiles| && 0 <= x < |s.tiles[y]| ==>
              r.tiles[y][x] == GrowTile(s.tiles[y][x])
    ensures r.player == s.player.(energy := FullEnergy, inventory := s.player.inventory.(water := FullWater))
    ensures r.day == s.day + 1 && r.time == MorningHour
    ensures r == s.(tiles := r.tiles, player := r.player, day := r.day, time := r.time)
  {
    var newTiles := seq(|s.tiles|, y requires 0 <= y < |s.tiles| => GrowRow(s.tiles[y]));
    s.(tiles := newTiles,
       day := s.day + 1,
       time := MorningHour,
       player := s.player.(energy := FullEnergy, inventory := s.player.inventory.(water := FullWater)))
  }

  // ---------------------------------------------------------------------
  // Buying seeds

  /** The state after a purchase, and whether the purchase went through. */
  datatype Purchase = Purchase(state: GameState, success: bool)

  /** Buys `amount` seeds of crop c at the fixed unit cost. It succeeds
      exactly when the player can afford the whole batch; a refused purchase
      changes nothing. */
  function BuySeeds(s: GameState, c: CropType, amount: int): (r: Purchase)
    ensures r.success <==> s.player.money >= SeedCost(c) * amount
    ensures !r.success ==> r.state == s
    ensures r.success ==> r.state.player.money == s.player.money - SeedCost(c) * amount
    ensures r.success ==> r.state.player.inventory.seeds.Get(c) == s.player.inventory.seeds.Get(c) + amount
    ensures forall d :: d != c ==> r.state.player.inventory.seeds.Get(d) == s.player.inventory.seeds.Get(d)
    ensures r.state == s.(player := s.player.(money := r.state.player.money,
                                              inventory := s.player.inventory.(seeds := r.state.player.inventory.seeds)))
  {
    var cost := SeedCost(c) * amount;
    if s.player.money >= cost then
      var p := s.player;
      var seeds := p.inventory.seeds;
      Purchase(s.(player := p.(money := p.money - cost,
                               inventory := p.inventory.(seeds := seeds.Set(c, seeds.Get(c) + amount)))),
               true)
    else
      Purchase(s, false)
  }
}
