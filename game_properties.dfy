/** What the engine promises: the tool rules one by one, the invariant
    that every transition (and so every run of transitions) preserves, and
    how crops grow over several nights. */
module GameProperties {
  import opened GameTypes
  import opened GameEngine

  // ---------------------------------------------------------------------
  // The tool rules, each stated as the whole new state

  lemma HoeRule(s: GameState, pos: Position)
    requires Shaped(s.tiles) && InGrid(pos) && s.player.currentTool == Hoe
    ensures var t, p := TileAt(s, pos), s.player;
            ApplyTool(s, pos) ==
              if !t.isPlowed && p.energy >= 5
              then s.(tiles := SetTile(s.tiles, pos, t.(isPlowed := true)),
                      player := p.(energy := p.energy - 5))
              else s
  {
  }

  lemma WateringRule(s: GameState, pos: Position)
    requires Shaped(s.tiles) && InGrid(pos) && s.player.currentTool == WateringCan
    ensures var t, p := TileAt(s, pos), s.player;
            ApplyTool(s, pos) ==
              if t.isPlowed && !t.isWatered && p.inventory.water > 0 && p.energy >= 3
              then s.(tiles := SetTile(s.tiles, pos, t.(isWatered := true)),
                      player := p.(inventory := p.inventory.(water := p.inventory.water - 1),
                                   energy := p.energy - 3))
              else s
  {
  }

  /** Planting always plants wheat at stage 1 and takes one wheat seed; the
      other crops' seed counts are never touched. */
  lemma SeedsRule(s: GameState, pos: Position)
    requires Shaped(s.tiles) && InGrid(pos) && s.player.currentTool == Seeds
    ensures var t, p, r := TileAt(s, pos), s.player, ApplyTool(s, pos);
            if t.isPlowed && t.crop.None? && p.inventory.seeds.Get(Wheat) > 0 && p.energy >= 5
            then && TileAt(r, pos) == t.(crop := Some(Wheat), cropStage := 1)
                 && r.player.inventory.seeds.Get(Wheat) == p.inventory.seeds.Get(Wheat) - 1
                 && r.player == p.(inventory := p.inventory.(seeds := r.player.inventory.seeds),
                                   energy := p.energy - 5)
            else r == s
    ensures forall c :: c != Wheat ==>
              ApplyTool(s, pos).player.inventory.seeds.Get(c) == s.player.inventory.seeds.Get(c)
  {
  }

  /** Harvesting a ripe crop credits one harvested unit and the crop's sale
      price, and clears the tile (it stays plowed). */
  lemma HandRule(s: GameState, pos: Position)
    requires Shaped(s.tiles) && InGrid(pos) && s.player.currentTool == Hand
    ensures var t, p, r := TileAt(s, pos), s.player, ApplyTool(s, pos);
            if t.crop.Some? && t.cropStage == 3 && p.energy >= 5
            then var c := t.crop.value;
                 && TileAt(r, pos) == t.(crop := None, cropStage := 0, isWatered := false)
                 && r.player.money == p.money + CropPrice(c)
                 && r.player.inventory.harvested.Get(c) == p.inventory.harvested.Get(c) + 1
                 && (forall d :: d != c ==> r.player.inventory.harvested.Get(d) == p.inventory.harvested.Get(d))
                 && r.player == p.(inventory := p.inventory.(harvested := r.player.inventory.harvested),
                                   money := r.player.money,
                                   energy := p.energy - 5)
            else r == s
  {
  }

  // ---------------------------------------------------------------------
  // Tool selection

  /** Selecting a tool replaces the current one and nothing else; the last
      selection wins, so selecting the same tool twice is selecting it once. */
  lemma SelectToolReplaces(s: GameState, a: ToolType, b: ToolType)
    ensures SelectTool(s, b) == s.(player := s.player.(currentTool := b))
    ensures SelectTool(SelectTool(s, a), b) == SelectTool(s, b)
    ensures SelectTool(SelectTool(s, b), b) == SelectTool(s, b)
  {
  }

  // ---------------------------------------------------------------------
  // The invariant is preserved by every transition

  lemma MovePreservesValid(s: GameState, d: Direction)
    requires Valid(s)
    ensures Valid(Move(s, d))
  {
  }

  lemma SelectToolPreservesValid(s: GameState, tool: ToolType)
    requires Valid(s)
    ensures Valid(SelectTool(s, tool))
  {
  }

  lemma ToolEffectPreservesInvariant(tool: ToolType, t: Tile, p: Player)
    requires TileOk(t) && PlayerOk(p)
    ensures TileOk(ToolEffect(tool, t, p).tile) && PlayerOk(ToolEffect(tool, t, p).player)
  {
  }

  lemma ApplyToolPreservesValid(s: GameState, pos: Position)
    requires Valid(s)
    ensures Valid(ApplyTool(s, pos))
  {
  }

  lemma AdvanceDayPreservesValid(s: GameState)
    requires Valid(s)
    ensures Valid(AdvanceDay(s))
  {
  }

  /** A purchase keeps the invariant when the amount is not negative; the
      engine itself does not check the sign of the amount. */
  lemma BuySeedsPreservesValid(s: GameState, c: CropType, amount: int)
    requires Valid(s) && amount >= 0
    ensures Valid(BuySeeds(s, c, amount).state)
  {
  }

  // ---------------------------------------------------------------------
  // Runs: the caller threads the state through a sequence of intents

  datatype Intent =
    | MoveTo(d: Direction)
    | Select(tool: ToolType)
    | Use(pos: Position)
    | Sleep
    | Buy(crop: CropType, amount: int)

  function Apply(s: GameState, i: Intent): (r: GameState)
    requires Shaped(s.tiles)
    ensures Shaped(r.tiles)
  {
    match i
    case MoveTo(d) => Move(s, d)
    case Select(tool) => SelectTool(s, tool)
    case Use(pos) => ApplyTool(s, pos)
    case Sleep => AdvanceDay(s)
    case Buy(c, n) => BuySeeds(s, c, n).state
  }

  function Run(s: GameState, intents: seq<Intent>): GameState
    requires Shaped(s.tiles)
    decreases |intents|
  {
    if intents == [] then s else Run(Apply(s, intents[0]), intents[1..])
  }

  predicate NoNegativePurchase(intents: seq<Intent>)
  {
    forall k :: 0 <= k < |intents| && intents[k].Buy? ==> intents[k].amount >= 0
  }

  function CountSleeps(intents: seq<Intent>): nat
  {
    if intents == [] then 0 else (if intents[0].Sleep? then 1 else 0) + CountSleeps(intents[1..])
  }

  lemma StepPreservesValid(s: GameState, i: Intent)
    requires Valid(s) && (i.Buy? ==> i.amount >= 0)
    ensures Valid(Apply(s, i))
  {
  }

  /** Whatever the player does (buying no negative amounts), energy and
      water stay within [0, 100], money stays non-negative, the player stays
      on the grid, and every tile keeps the tile invariant. */
  lemma {:induction false} RunPreservesValid(s: GameState, intents: seq<Intent>)
    requires Valid(s) && NoNegativePurchase(intents)
    ensures Valid(Run(s, intents))
    ensures 0 <= Run(s, intents).player.energy <= FullEnergy
    ensures 0 <= Run(s, intents).player.inventory.water <= FullWater
    decreases |intents|
  {
    if intents != [] {
      StepPreservesValid(s, intents[0]);
      assert NoNegativePurchase(intents[1..]) by {
        forall k | 0 <= k < |intents| - 1 && intents[1..][k].Buy?
          ensures intents[1..][k].amount >= 0
        {
          assert intents[1..][k] == intents[k + 1];
        }
      }
      RunPreservesValid(Apply(s, intents[0]), intents[1..]);
    }
  }

  /** The day counter counts exactly the nights slept; no other transition
      touches it. */
  lemma {:induction false} RunCountsDays(s: GameState, intents: seq<Intent>)
    requires Shaped(s.tiles)
    ensures Run(s, intents).day == s.day + CountSleeps(intents)
    decreases |intents|
  {
    if intents != [] {
      RunCountsDays(Apply(s, intents[0]), intents[1..]);
    }
  }

  // ---------------------------------------------------------------------
  // Growth over several nights

  /** Of two consecutive nights the second changes no tile: the first
      night dried every tile, so nothing is watered for the second. */
  lemma SleepTwiceGrowsOnce(s: GameState)
    ensures AdvanceDay(AdvanceDay(s)).tiles == AdvanceDay(s).tiles
  {
    var once, twice := AdvanceDay(s).tiles, AdvanceDay(AdvanceDay(s)).tiles;
    forall y | 0 <= y < |once| ensures twice[y] == once[y] {
      assert |twice[y]| == |once[y]|;
      forall x | 0 <= x < |once[y]| ensures twice[y][x] == once[y][x] {
        assert twice[y][x] == GrowTile(once[y][x]);
      }
    }
  }

  /** One tile after k days on each of which it is watered before the night. */
  function TendedFor(t: Tile, k: nat): Tile
    decreases k
  {
    if k == 0 then t else TendedFor(GrowTile(t.(isWatered := true)), k - 1)
  }

  /** A crop watered every day gains one stage per night up to 3, whatever
      the crop: the growth-time table plays no part. */
  lemma {:induction false} TendedStage(t: Tile, k: nat)
    requires t.crop.Some?
    ensures TendedFor(t, k).crop == t.crop
    ensures TendedFor(t, k).isPlowed == t.isPlowed
    ensures TendedFor(t, k).cropStage == Min(3, t.cropStage + k)
    decreases k
  {
    if k > 0 {
      TendedStage(GrowTile(t.(isWatered := true)), k - 1);
    }
  }

  /** Every freshly planted crop is ripe after two watered nights, which is
      fewer days than the growth time listed for any crop. */
  lemma RipeAfterTwoWateredNights(t: Tile)
    requires t.crop.Some? && t.cropStage == 1
    ensures TendedFor(t, 2).cropStage == 3 && TendedFor(t, 2).crop == t.crop
    ensures 2 < CropGrowthTime(t.crop.value)
  {
    TendedStage(t, 2);
  }

  /** Watering a tile and then sleeping gives that tile the watered night of
      TendedFor; this links the tile-level growth to the two transitions. */
  lemma WaterThenSleep(s: GameState, pos: Position)
    requires Shaped(s.tiles) && InGrid(pos) && s.player.currentTool == WateringCan
    requires Enabled(WateringCan, TileAt(s, pos), s.player)
    ensures TileAt(AdvanceDay(ApplyTool(s, pos)), pos) == TendedFor(TileAt(s, pos), 1)
  {
  }

  // ---------------------------------------------------------------------
  // The shop

  /** Five tomato seeds cost 50: affordable with 100 coins, not with 40. */
  lemma BuyFiveTomatoes(s: GameState)
    ensures s.player.money == 100 ==>
              var r := BuySeeds(s, Tomato, 5);
              r.success && r.state.player.money == 50
              && r.state.player.inventory.seeds.Get(Tomato) == s.player.inventory.seeds.Get(Tomato) + 5
    ensures s.player.money == 40 ==> BuySeeds(s, Tomato, 5) == Purchase(s, false)
  {
  }
}
