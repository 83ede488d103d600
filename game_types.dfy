/** The data model of the farm game: directions, tools, crops and their
    stages, tiles, the player with its inventory, the game state, the grid
    dimensions and the three per-crop constant tables. */
module GameTypes {

  datatype Direction = Up | Down | Left | Right

  /** The four tools; the tool rule dispatches on exactly these. */
  datatype ToolType = Hoe | WateringCan | Seeds | Hand

  datatype CropType = Wheat | Carrot | Tomato | Corn | Potato

  /** 0: empty, 1 and 2: growing, 3: harvestable. */
  type CropStage = s: int | 0 <= s <= 3

  /** A value or nothing (the source's `null`). */
  datatype Option<T> = None | Some(value: T)

  datatype Position = Position(x: int, y: int)

  /** A count for every crop type: one field per variant, so no crop can
      be missing from the table. */
  datatype CropCounts = CropCounts(wheat: int, carrot: int, tomato: int, corn: int, potato: int)
  {
    function Get(c: CropType): int
    {
      match c
      case Wheat => wheat
      case Carrot => carrot
      case Tomato => tomato
      case Corn => corn
      case Potato => potato
    }

    /** The table with the entry of `c` replaced by `n`; every other entry is kept. */
    function Set(c: CropType, n: int): (r: CropCounts)
      ensures r.Get(c) == n
      ensures forall d :: d != c ==> r.Get(d) == Get(d)
    {
      match c
      case Wheat => this.(wheat := n)
      case Carrot => this.(carrot := n)
      case Tomato => this.(tomato := n)
      case Corn => this.(corn := n)
      case Potato => this.(potato := n)
    }

    predicate NonNegative()
    {
      forall c :: Get(c) >= 0
    }
  }

  datatype Inventory = Inventory(seeds: CropCounts, harvested: CropCounts, water: int)

  datatype Player = Player(
    position: Position,
    direction: Direction,
    currentTool: ToolType,
    inventory: Inventory,
    energy: int,
    money: int)

  datatype Tile = Tile(
    position: Position,
    isPlowed: bool,
    isWatered: bool,
    crop: Option<CropType>,
    cropStage: CropStage)

  /** The aggregate the caller holds; `tiles[y][x]` is the tile at column x, row y.
      `time` is the hour of the day. */
  datatype GameState = GameState(
    player: Player,
    tiles: seq<seq<Tile>>,
    gridWidth: int,
    gridHeight: int,
    selectedTile: Option<Position>,
    day: int,
    time: int)

  /** Pixel size of a tile; only the renderer uses it. */
  const TileSize: int := 32
  const GridWidth: int := 16
  const GridHeight: int := 12

  /** Sale price of one harvested crop. */
  function CropPrice(c: CropType): (price: int)
    ensures price > 0
  {
    match c
    case Wheat => 10
    case Carrot => 15
    case Tomato => 20
    case Corn => 25
    case Potato => 12
  }

  /** Growth duration in days. No transition consults it. */
  function CropGrowthTime(c: CropType): (days: int)
    ensures days > 0
  {
    match c
    case Wheat => 3
    case Carrot => 4
    case Tomato => 5
    case Corn => 6
    case Potato => 4
  }

  /** Purchase price of one seed. */
  function SeedCost(c: CropType): (cost: int)
    ensures cost > 0
  {
    match c
    case Wheat => 5
    case Carrot => 8
    case Tomato => 10
    case Corn => 12
    case Potato => 6
  }
}
