# Farm state engine, modelled in Dafny

This project models the state engine of a small browser farming game. A
player walks over a 16 × 12 grid of tiles, uses one of four tools on a
tile (hoe, watering can, seeds, hand), sleeps to advance the day, and buys
seeds in a shop. The engine is a deterministic state machine: each of its
five transitions (`movePlayer`, `selectTool`, `useTool`, `advanceDay`,
`buySeeds`) maps the previous game state and an intent to a new state.

Files and modules:

- `game_types.dfy`, module `GameTypes`: directions, tools, crops, the crop
  stage 0..3 (a subset type), positions, the per-crop count tables, tiles,
  the player and its inventory, the game state, the grid size and the three
  per-crop tables (sale price, growth time, seed cost).
- `game_engine.dfy`, module `GameEngine`: the invariant `Valid`, the initial
  state, and the transitions. The game state is a value; a transition returns
  a new one. The parts of the source that work step by step are methods
  (`CreateInitialTiles` with its two nested loops, `UseTool` updating a
  copied tile and player field by field, `MovePlayer` updating a local
  position). Each method is proved equal to a reference function (`ApplyTool`,
  `Move`) that the lemmas use. The parts that are spreads and maps in the
  source (`SelectTool`, `AdvanceDay`, `BuySeeds`) are functions.
- `game_properties.dfy`, module `GameProperties`: the tool rules, the
  preservation of `Valid` by every transition and by every run of
  transitions, the day counter, and multi-night growth.

The invariant `Valid` says the following:

- the grid is 12 rows of 16 tiles, and every tile knows its own position;
- on every tile a crop is present exactly when the stage is positive, a crop
  stands only on plowed soil, and only plowed soil is watered;
- the player is on the grid;
- energy and water lie in [0, 100];
- money and every seed and harvest count are non-negative;
- the day is at least 1.

This invariant is stronger than "stage > 0 implies a crop on a plowed tile",
and it implies that.

Numbers in the source are JavaScript numbers. Every value the engine computes
is a small integer, so the model uses unbounded `int`. Transitions that index
the grid require `Shaped(tiles)`, that is 12 rows of 16 tiles. The source
assumes this by construction and would fail on a missing tile.

## Model

| member | source | states |
|---|---|---|
| `GameTypes.CropCounts.Set` | client/src/types/game.ts:27-31 | updating one crop's count sets that entry and leaves every other crop's entry as it was |
| `GameTypes.CropPrice` | client/src/types/game.ts:55-61 | a sale price for every one of the five crops, each positive |
| `GameTypes.CropGrowthTime` | client/src/types/game.ts:63-69 | a growth time for every crop, each positive (no transition reads it) |
| `GameTypes.SeedCost` | client/src/types/game.ts:71-77 | a seed cost for every crop, each positive |
| `GameEngine.CreateInitialTiles` | client/src/contexts/GameContext.tsx:20-35 | builds 12 rows of 16 tiles; the tile at (x, y) is unplowed, dry, has no crop, stage 0, and position (x, y) |
| `GameEngine.InitialPlayer` | client/src/contexts/GameContext.tsx:37-60 | the starting player satisfies the player invariant; stands at (8, 6) facing down with the hoe; has energy 100, water 100 and money 100; holds 10 wheat, 5 carrot, 3 tomato, 2 corn and 5 potato seeds; and has harvested nothing |
| `GameEngine.InitialGameState` | client/src/contexts/GameContext.tsx:63-71 | the initial state satisfies `Valid`, with the initial player, no selected tile, day 1, 6 o'clock and an empty grid |
| `GameEngine.Neighbour` | client/src/contexts/GameContext.tsx:77-90 | a step in any direction changes exactly one coordinate by exactly 1 |
| `GameEngine.Move` | client/src/contexts/GameContext.tsx:73-101 | facing becomes the direction and nothing but position and facing changes; the other axis is kept; from a position on the grid the player reaches the neighbour if it is on the grid, and stays put at a wall |
| `GameEngine.SelectTool` | client/src/contexts/GameContext.tsx:103-111 | the current tool becomes the chosen one, unconditionally, and nothing else in the player or the state changes |
| `GameEngine.MovePlayer` | client/src/contexts/GameContext.tsx:73-101 | the step-by-step update of a local position computes exactly `Move` |
| `GameEngine.ToolEffect` | client/src/contexts/GameContext.tsx:122-159 | a tool whose condition fails changes neither tile nor player; one whose condition holds costs exactly its energy (3 for the watering can, 5 otherwise); plowing is never undone; position, facing and tool are kept |
| `GameEngine.SetTile` | client/src/contexts/GameContext.tsx:118-119 | the copied grid keeps its shape, holds the new tile at (x, y), and every other tile is the old one |
| `GameEngine.ApplyTool` | client/src/contexts/GameContext.tsx:113-167 | outside [0,16)×[0,12) the state is returned unchanged; inside, at most the tile at (x, y) changes, only tiles and player change, and either nothing changes or energy drops by exactly the tool's cost |
| `GameEngine.UseTool` | client/src/contexts/GameContext.tsx:113-167 | the copy-then-mutate procedure computes exactly `ApplyTool` |
| `GameEngine.GrowTile` | client/src/contexts/GameContext.tsx:172-184 | after a night the tile is dry; a watered crop below stage 3 gains one stage, any other tile keeps its stage; plowing, crop and position are kept |
| `GameEngine.GrowRow` | client/src/contexts/GameContext.tsx:172-184 | a row keeps its length and every tile has its night |
| `GameEngine.AdvanceDay` | client/src/contexts/GameContext.tsx:169-202 | every tile has its night; energy and water become 100, the day goes up by 1, the time becomes 6; money, seeds, harvest counts, position, facing and tool are unchanged |
| `GameEngine.BuySeeds` | client/src/contexts/GameContext.tsx:204-225 | succeeds exactly when money covers cost × amount; on success money drops by exactly that and the crop's seeds rise by the amount; other crops' seeds are never touched; a refusal changes nothing |
| `GameProperties.HoeRule` | client/src/contexts/GameContext.tsx:123-128 | the hoe on an unplowed tile with energy ≥ 5 plows it and costs 5 energy; otherwise the state is unchanged |
| `GameProperties.WateringRule` | client/src/contexts/GameContext.tsx:130-136 | the can on a plowed, dry tile with water > 0 and energy ≥ 3 waters it at the cost of 1 water and 3 energy; otherwise the state is unchanged |
| `GameProperties.SeedsRule` | client/src/contexts/GameContext.tsx:138-146 | seeds on a plowed empty tile with wheat seeds > 0 and energy ≥ 5 plant wheat at stage 1, take one wheat seed and 5 energy; otherwise nothing changes; other crops' seeds never change |
| `GameProperties.HandRule` | client/src/contexts/GameContext.tsx:148-158 | the hand on a stage-3 crop with energy ≥ 5 adds 1 to that crop's harvest count and its price to money, clears crop, stage and water, and costs 5 energy; otherwise nothing changes |
| `GameProperties.SelectToolReplaces` | client/src/contexts/GameContext.tsx:103-111 | selecting replaces only the current tool; the last selection wins, so selecting a tool twice equals selecting it once |
| `GameProperties.MovePreservesValid` | client/src/contexts/GameContext.tsx:73-101 | a move keeps the invariant (in particular the player stays on the grid) |
| `GameProperties.SelectToolPreservesValid` | client/src/contexts/GameContext.tsx:103-111 | selecting a tool keeps the invariant |
| `GameProperties.ToolEffectPreservesInvariant` | client/src/contexts/GameContext.tsx:122-159 | every tool rule keeps the tile invariant and the player's bounds |
| `GameProperties.ApplyToolPreservesValid` | client/src/contexts/GameContext.tsx:113-167 | a tool use keeps the invariant |
| `GameProperties.AdvanceDayPreservesValid` | client/src/contexts/GameContext.tsx:169-202 | the night keeps the invariant; the stage cap keeps every stage within 0..3 |
| `GameProperties.BuySeedsPreservesValid` | client/src/contexts/GameContext.tsx:204-225 | a purchase of a non-negative amount keeps the invariant (money never goes negative) |
| `GameProperties.Apply` | client/src/contexts/GameContext.tsx:9-16 | each of the five intents keeps the grid's shape |
| `GameProperties.StepPreservesValid` | client/src/contexts/GameContext.tsx:9-16 | every intent keeps the invariant |
| `GameProperties.RunPreservesValid` | client/src/contexts/GameContext.tsx:9-16 | over any sequence of intents, energy and water stay in [0, 100] and the whole invariant holds |
| `GameProperties.RunCountsDays` | client/src/contexts/GameContext.tsx:187-191 | after any sequence of intents, the day has gone up by exactly the number of nights slept |
| `GameProperties.SleepTwiceGrowsOnce` | client/src/contexts/GameContext.tsx:171-185 | of two consecutive nights (two `AdvanceDay` calls in a row) the second changes no tile |
| `GameProperties.TendedStage` | client/src/contexts/GameContext.tsx:176-181 | a crop watered every day reaches stage min(3, stage + k) after k nights, whatever the crop |
| `GameProperties.RipeAfterTwoWateredNights` | client/src/types/game.ts:63-69 | every planted crop is ripe after two watered nights, fewer than its listed growth time |
| `GameProperties.WaterThenSleep` | client/src/contexts/GameContext.tsx:130-136 | watering a tile and then sleeping gives that tile exactly one watered night |
| `GameProperties.BuyFiveTomatoes` | client/src/contexts/GameContext.tsx:204-225 | five tomato seeds cost 50: bought with 100 coins (50 left, 5 more seeds), refused with 40 |

## Left out

- The React context, `useState`, `useCallback`, the provider and `useGame`. The transitions are explicit state-passing functions, and `Run` threads one state through a sequence of intents.
- Rendering, mouse handling and the click-to-tile conversion in the canvas component. They are drawing calls and floating-point arithmetic.
- The UI panels and the keyboard key map. They only read the state or call the engine.
- The "energy < 20" sleep gate and the shop's fixed batch of 5. Both are presentation policy; the engine's own `advanceDay` and `buySeeds` have no such condition.
- The aliasing in `useTool`: the player copy is shallow, so the source also decrements water and seeds, and increments harvest counts, in the previous state's inventory. The model uses value semantics; the previous state is never changed.
- The stale closure in `buySeeds`: the source checks the money of the last rendered state, not of the state it updates. The model checks the money of the state it updates.
- `BuySeeds`: the source does not check the sign of `amount`, and the model follows it. A negative amount raises money and lowers a seed count. So `BuySeedsPreservesValid` and `RunPreservesValid` require purchases to be non-negative.
- `Move`: for a start position outside the grid, the contract states only that the coordinate off the step's axis is unchanged. Every state reachable from the initial one has the player on the grid.
- `selectedTile` and `time` are kept in the state. No transition reads them. `advanceDay` sets `time` to 6, and nothing else changes either field.
- The tile pixel size is kept only as a constant.
