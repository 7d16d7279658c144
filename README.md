# Ocean Relic board engine — a Dafny model

This project models the core of the Ocean Relic tabletop board in Dafny:

- **The board state engine.** It keeps a map of tokens keyed by id. Each token is a player, oxygen or tile piece. The engine also keeps three FIFO queues of tile faces, one per deck column, and a z-order counter. Its operations are `initializeState`, `updateToken`, `bringToFront`, `spawnOxygen` and `spawnTile`.
- **The grid builder.** It turns the raw region rectangles of the board description into addressable cells. Each cell is anchored at the middle of its rectangle's top edge and has the id `<region>-<index>`. The builder produces one list per region and one flattened list `all` in a fixed order, and it computes the minimum cell dimension.
- **The Fisher–Yates shuffle.** This is Durstenfeld's in-place variant run on a copy of the input.
- **The drag handlers of the three token components.** They are the flag state machine of the pieces: drag start raises the token and may spawn a replacement, and drag end flips tiles, takes them off the deck and ends an oxygen token's time as the supply.
- **Two derivations of the interaction layer.** These are the snap targets offered to a dragged token and the stacking order in which tokens are drawn and dispatched to their views.

## Modules

The modules follow the program's files:

| module | file | models |
|---|---|---|
| `Decimal` | `decimal.dfy` | how template literals write an index (`${index}`), which the cell and token ids embed |
| `Options` | `options.dfy` | an optional field of a partial update |
| `Grid` | `grid.dfy` | `src/lib/grid.ts` |
| `Shuffle` | `shuffle.dfy` | `src/lib/shuffle.ts` |
| `Assets` | `assets.dfy` | the constants of `src/features/board/assets.ts` |
| `Store` | `store.dfy` | `src/features/board/store.ts`, plus the drag handlers of `TileToken.tsx`, `OxygenToken.tsx` and `PlayerToken.tsx` |
| `Interact` | `interact.dfy` | the scale, snap targets, stacking order and view dispatch of `GameInteractLayer.tsx` |

## How the engine is modelled

The engine is the class `Store.Board`. Its fields are:

- `tokens`, a `map<string, Token>`;
- `tileQueues`, a `seq<seq<TileAsset>>`;
- `zCounter`, an `int`;
- `notifications`, a ghost counter. It stands for `notifyListeners`: every call that would notify the subscribed views adds one.

The spawn operations notify and `updateToken` does not, and the contracts state this asymmetry.

Each method has two kinds of postcondition:

- one states its whole new state in terms of the old state;
- invariants it keeps. `Valid()` requires that every token be stored under its own id, that there be three queues and that the counter be at least 1000; every method keeps it. `Stacked()` requires that no token be stacked above the counter. Every method except `UpdateToken` keeps it. `UpdateToken` keeps it only when the update names no zIndex, or one at most the counter, because the source accepts any zIndex there.

The constructor is `initializeState`. It takes three inputs:

- the grid;
- the tile catalogue;
- the indices the shuffle draws.

It runs the same loops as the source: two tokens per colour, the oxygen token, one tile per deck cell, then round-robin dealing. Each loop is proved against a function that describes the resulting tokens (`InitialTokens`, `Register`, `Deal`). The lemmas about those functions state the counts, ids, positions and heights of the initial tokens, and the content of each queue.

The drag handlers are methods of the engine. They read the token's flags from the engine's current state. They can only be called for a token of their component's kind, since a component exists only for such a token.

The shuffle copies its input into a fresh array and swaps in place from the last position down to 1. The random generator is replaced by the sequence of indices it leads to: the k-th draw is an index j with `0 <= j <= n-1-k`. `ChoiceFromUniform` shows how a draw `u` in [0, 1) becomes such an index, namely `floor(u * (i + 1))`.

Coordinates and sizes are exact reals.

### Drag end does not commit the drop point

All three handlers write back the `position` the token already had, because the drag offset lives only in the component's local state. The model follows the code. For a player token, drag end therefore leaves the stored state exactly as it was. For oxygen and tile tokens, drag end changes only their flags.

## Model

| member | source | states |
|---|---|---|
| Decimal.NatToString | src/lib/grid.ts:108 | an index is written as a non-empty run of decimal digits, one digit exactly when it is below 10 |
| Decimal.NatToStringInjective | src/lib/grid.ts:108 | distinct indices are written differently |
| Grid.PushRegionCells | src/lib/grid.ts:85-89 | the inner pass returns the region's rectangles converted in order, each with its own index, and extends `all` by exactly that list |
| Grid.BuildGridSummary | src/lib/grid.ts:56-105 | the builder's nested loops and the two singleton pushes produce exactly the summary `Summary(info)`: the six region lists, the two singleton cells and `all` |
| Grid.SummaryAssembled | src/lib/grid.ts:92-104 | the six region lists and `all` extended by the player-prepare and then the oxygen-prepare cell form the summary |
| Grid.ListRegionsLayout | src/lib/grid.ts:70-90 | flattening the list regions gives score track, hands, scene, oxygen, player-token and deck-prepare cells, in that order |
| Grid.AllLayout | src/lib/grid.ts:70-102 | `all` is the six region lists in their fixed order, then the player-prepare cell, then the oxygen-prepare cell |
| Grid.AllLength | src/lib/grid.ts:70-102 | `all` has one cell per list rectangle plus 2 |
| Grid.SingletonCellIds | src/lib/grid.ts:92-102 | both singleton cells get index 0 in their ids and carry their own region |
| Grid.NameInjective | src/lib/grid.ts:70-77 | the region keys are pairwise distinct |
| Grid.CellIdInjective | src/lib/grid.ts:107-108 | two cells get the same id only for the same region and the same index |
| Grid.CellsTagged | src/lib/grid.ts:85-89 | every cell of a region's list carries that region and an id `<region>-<digits>` |
| Grid.CellsDistinct | src/lib/grid.ts:85-89 | ids within one region's list are pairwise distinct |
| Grid.FlattenDistinct | src/lib/grid.ts:79-102 | over distinct regions, the flattened cells have pairwise distinct ids and each belongs to one of those regions |
| Grid.AllIdsDistinct | src/lib/grid.ts:79-102 | every id in `all` is unique |
| Grid.AnchorIsTopCentre | src/lib/grid.ts:107-114 | a cell's anchor is the midpoint of its rectangle's top edge, not its centre; its size is the rectangle's; the other three corners are not read |
| Grid.RectToCell | src/lib/grid.ts:107-114 | converts one rectangle into a cell; `AnchorIsTopCentre` proves the anchor is the top-edge midpoint and the size the rectangle's, `CellIdInjective` that the id `<region>-<index>` tells cells apart |
| Grid.MinOf | src/lib/grid.ts:121 | the minimum of a non-empty list is at most every element and equals one of them |
| Grid.DeriveCellMinDimension | src/lib/grid.ts:116-122 | 0 for no cells; otherwise at most every cell's width and height, and equal to one of them |
| Shuffle.Swap | src/lib/shuffle.ts:5 | positions i and j are exchanged and every other position is kept |
| Shuffle.SwapPermutes | src/lib/shuffle.ts:5 | an exchange keeps every element with its multiplicity |
| Shuffle.PassesPermutes | src/lib/shuffle.ts:3-5 | the remaining swaps of the pass keep the length and the multiset |
| Shuffle.Passes | src/lib/shuffle.ts:3-6 | the swaps of the pass from a position down to 1; `PassesPermutes` proves they keep the length and the multiset |
| Shuffle.ShuffleIsPermutation | src/lib/shuffle.ts:1-8 | the shuffled sequence is a permutation of the input: same length, same multiset |
| Shuffle.ShuffleOf | src/lib/shuffle.ts:1-8 | the sequence the shuffle returns for given draws; `ShuffleIsPermutation` proves it a permutation of the input, and `Shuffle.Shuffle` that the loop computes it |
| Shuffle.SwapCells | src/lib/shuffle.ts:5 | the in-place exchange leaves the array holding the swapped sequence |
| Shuffle.Shuffle | src/lib/shuffle.ts:1-8 | the loop over the array copy returns the sequence the draws determine (`ShuffleOf`); it is a permutation of the input; inputs of length 0 or 1 come back unchanged; the input is a value and is not modified |
| Shuffle.ChoiceFromUniform | src/lib/shuffle.ts:4 | `floor(u * (i + 1))` for a draw `u` in [0, 1) lies in [0, i] |
| Shuffle.ChoicesFromDraws | src/lib/shuffle.ts:3-4 | the indices derived from a run of draws are valid swap choices for the whole pass |
| Shuffle.HalfGeneratorChoices | src/lib/shuffle.ts:4 | a generator that always returns 0.5 draws the indices 2, 1, 1 over four elements |
| Shuffle.HalfGeneratorVector | src/lib/shuffle.ts:1-8 | with those indices, [1, 2, 3, 4] is shuffled to [1, 4, 2, 3] |
| Assets.ColourInitialsDistinct | src/features/board/assets.ts:29-34 | the four colour ids differ already in their first letter |
| Store.Merge | src/features/board/store.ts:157 | spreading an update over a token keeps its id, kind and every field the update does not name, and replaces the named ones |
| Store.MergeNothing | src/features/board/store.ts:157 | an empty update leaves the token unchanged |
| Store.MergeIdempotent | src/features/board/store.ts:157 | applying the same update twice equals applying it once |
| Store.Raise | src/features/board/store.ts:165 | raising is the update that names only `zIndex` |
| Store.PlayerIdInjective | src/features/board/store.ts:81 | `player-<colour>-<i>` ids coincide only for the same colour and copy |
| Store.InitialTileIdInjective | src/features/board/store.ts:117 | `tile-initial-<d>` ids coincide only for the same deck |
| Store.SpawnedIdsAreNotInitial | src/features/board/store.ts:172-203 | the ids of spawned tokens never coincide with an initial token's id, and spawned oxygen and tile ids never coincide |
| Store.RegisterSound | src/features/board/store.ts:68-132 | every entry of a map filled by id holds a listed token under that token's own id |
| Store.RegisterUnique | src/features/board/store.ts:68-132 | filling the map from tokens with distinct ids keeps all of them, each under its own id, and nothing else |
| Store.InitialIdsUnique | src/features/board/store.ts:79-132 | the ids of the initial tokens are pairwise distinct |
| Store.InitialPlayerEntry | src/features/board/store.ts:79-93 | copy i of colour c is stored as `player-<colour>-<i>` at `(prepare.x + 30(c-3+i+1), prepare.y)` with zIndex `100 + 2c + i` |
| Store.InitialTileEntry | src/features/board/store.ts:114-132 | deck d gets `tile-initial-d`: shuffled face d, face down, on the deck, on the deck cell, zIndex `400 + 50d` |
| Store.InitialBelowCounter | src/features/board/store.ts:90-143 | every initial zIndex is below the initial counter 1000 |
| Store.InitialTokenMap | src/features/board/store.ts:67-145 | initialisation stores 8 players, the supply oxygen token `oxygen-initial` at zIndex 200 and one tile per deck cell with a face; each is under its own id and below 1000 |
| Store.Deal | src/features/board/store.ts:109 | dealing always yields three queues |
| Store.DealRoundRobin | src/features/board/store.ts:135-138 | queue k holds faces k, k+3, k+6, … of the dealt faces, in order |
| Store.QueuedUpdate | src/features/board/store.ts:197-198 | replacing one queue changes the total by the difference in its length |
| Store.DealTotal | src/features/board/store.ts:135-138 | dealing loses no face |
| Store.InitialQueues | src/features/board/store.ts:107-138 | after initialisation queue k is shuffled faces 3+k, 6+k, … and the queues hold max(0, n-3) faces together |
| Store.PlayerStep | src/features/board/store.ts:81-91 | storing copy i of colour c extends the map built so far by exactly that token |
| Store.PlacePlayers | src/features/board/store.ts:79-93 | the nested colour and copy loops store exactly the eight initial player tokens |
| Store.DeckTileStep | src/features/board/store.ts:114-132 | visiting deck cell d adds `tile-initial-d` exactly when there is a face for it |
| Store.DeckPrefixEnds | src/features/board/store.ts:96-132 | before the deck loop the map holds the players and the oxygen token; after it, every initial token |
| Store.PlaceDeckTile | src/features/board/store.ts:114-131 | a deck cell with a face gets its face-down tile; one without a face leaves the map as it was |
| Store.PlaceDeckTiles | src/features/board/store.ts:112-132 | the deck loop completes the initial token map |
| Store.DealQueues | src/features/board/store.ts:106-138 | skipping the first three faces and pushing face i onto queue i mod 3 gives `Deal` of the rest |
| Store.Board.constructor | src/features/board/store.ts:67-145 | initialisation stores exactly the initial tokens of the shuffled faces, deals the rest, sets the counter to 1000 above every token, and notifies no one |
| Store.Board.UpdateToken | src/features/board/store.ts:149-161 | an unknown id changes nothing; otherwise only that entry is replaced by the merge; the queues and counter stay; no notification |
| Store.Board.BringToFront | src/features/board/store.ts:163-166 | the counter rises by exactly 1 even for an unknown id, and the token is restacked at the new value, above every other token |
| Store.Board.SpawnOxygen | src/features/board/store.ts:168-190 | the counter rises by 1; a supply oxygen token is added at the oxygen slot at the new height; the queues stay; exactly one notification |
| Store.Board.SpawnTile | src/features/board/store.ts:192-226 | a missing or empty queue changes nothing; otherwise the head is popped and becomes a face-down, on-deck tile on that deck's cell at `400 + 50d`; one face fewer is queued; the counter stays; exactly one notification |
| Store.Board.PlayerDragStart | src/features/board/components/tokens/PlayerToken.tsx:51-53 | picking up a player only raises it and never spawns |
| Store.Board.PlayerDragEnd | src/features/board/components/tokens/PlayerToken.tsx:55-59 | dropping a player leaves the whole state unchanged |
| Store.Board.OxygenDragStart | src/features/board/components/tokens/OxygenToken.tsx:51-56 | the token is raised; a replacement supply is spawned above it if and only if the token is the supply; flags only advance |
| Store.Board.OxygenDragEnd | src/features/board/components/tokens/OxygenToken.tsx:58-73 | nothing at scale 0; otherwise the token stops being the supply and nothing else changes; flags only advance |
| Store.Board.TileDragStart | src/features/board/components/tokens/TileToken.tsx:65-70 | the tile is raised; the next face of its deck is spawned if and only if it is on the deck and that queue has a face; flags only advance |
| Store.Board.TileDragEnd | src/features/board/components/tokens/TileToken.tsx:73-99 | nothing at scale 0; otherwise the tile ends face up and off the deck and nothing else changes; flags only advance |
| Interact.Scale | src/features/board/components/GameInteractLayer.tsx:15 | the scale is 0 for an unsized board and otherwise board size / 4096 |
| Interact.SnapTargets | src/features/board/components/GameInteractLayer.tsx:20-29 | no targets for an unsized board; otherwise one per cell of `all`, in order, at that cell's anchor |
| Interact.TargetsOfFlatten | src/features/board/components/GameInteractLayer.tsx:23-28 | when the regions' rectangles are axis-aligned, the targets of the flattened cells are the midpoints of those rectangles' top edges (between the left-top and right-top corners), region after region |
| Interact.SnapTargetsAreAnchors | src/features/board/components/GameInteractLayer.tsx:20-29 | for the grid built from axis-aligned rectangles, a sized board snaps to the midpoints of all raw rectangles' top edges, one per rectangle plus the two prepare slots |
| Interact.InsertByZPermutes | src/features/board/components/GameInteractLayer.tsx:34 | inserting a token adds exactly that token |
| Interact.InsertByZSorted | src/features/board/components/GameInteractLayer.tsx:34 | inserting into an ascending order keeps it ascending |
| Interact.InsertByZ | src/features/board/components/GameInteractLayer.tsx:34 | places one token after every token no higher than it; `InsertByZPermutes` and `InsertByZSorted` prove it adds exactly that token and keeps the order ascending |
| Interact.OrderByZSorts | src/features/board/components/GameInteractLayer.tsx:33-36 | the drawing order is ascending in zIndex and a permutation of its input |
| Interact.OrderByZ | src/features/board/components/GameInteractLayer.tsx:33-36 | the drawing order; `OrderByZSorts` proves it ascending in zIndex and a permutation, `OrderByZIsStable` that it is stable |
| Interact.InsertKeepsHeights | src/features/board/components/GameInteractLayer.tsx:34 | insertion puts the token after every token of equal height |
| Interact.OrderByZIsStable | src/features/board/components/GameInteractLayer.tsx:33-36 | the sort is stable: tokens of equal height keep their order of enumeration |
| Interact.OrderedTokensListValues | src/features/board/components/GameInteractLayer.tsx:33-36 | the drawing order lists every token of the map exactly once, in ascending zIndex |
| Interact.Render | src/features/board/components/GameInteractLayer.tsx:40-88 | each token goes to the view of its own kind only, with id, position, height and flags passed through |
| Interact.ViewsStackBottomUp | src/features/board/components/GameInteractLayer.tsx:33-88 | one view per token of the map: as many views as tokens, every token of the map rendered by some view, each view its own token's rendering, drawn in ascending zIndex |
| Interact.RenderAll | src/features/board/components/GameInteractLayer.tsx:40-88 | the views in drawing order; `ViewsStackBottomUp` proves one view per token, every token drawn, each view its own token's, in ascending zIndex |

## Left out

- The React subscription (`useGameStore`, the listener set) is left out. The ghost `notifications` counter of `Store.Board` stands for `notifyListeners`.
- The module-level singleton and its start-up call are left out. The model's constructor takes the grid, the tile catalogue and the shuffle's draws as parameters.
- `Store.Board.SpawnOxygen`, `Store.Board.SpawnTile`: the clock reading `Date.now()` is the parameter `now`. Two spawns in the same millisecond get the same id, and the second overwrites the first as in the source. The token count therefore grows by one only when the id is fresh, and the contract says so.
- Sizes and coordinates are exact reals. Floating-point rounding of the 0.7, 0.85 and 0.92 factors and of `w / 2` is not modelled.
- `Math.min` over an empty scene grid gives Infinity in the source. The model instead requires a non-empty scene grid (`GridReady`).
- `Store.Board.constructor` requires exactly three deck cells. The queue count is fixed at 3 while the deck loop runs over the deck cells, and the board description has three.
- `Math.random` is replaced by the sequence of indices it leads to. `ChoiceFromUniform` shows the conversion of one draw.
- The handlers read the token's flags and position from the engine's current state, and take the scale as a parameter. In the program each handler is a `useCallback` closure over the props of an earlier render, rebuilt only when a value in its dependency list changes. The model does not capture these stale closures, and they change what the program does in the two ways below.
- `Store.Board.OxygenDragEnd`: the model lets the initial supply oxygen token leave the supply at any non-zero scale, but the program never does. `src/features/board/components/BoardScene.tsx:7` starts the board size at 0, so the first render has scale 0 (`src/features/board/components/GameInteractLayer.tsx:15`). The drag-end callback at `src/features/board/components/tokens/OxygenToken.tsx:58-73` leaves `scale` out of its dependency list. None of the values it does list ever changes for `oxygen-initial`, because drag end writes back the position the token already had. The callback therefore keeps scale 0 and always returns at line 59. `oxygen-initial` stays the supply for good, and every drag of it spawns another supply token. The contract holds for the oxygen tokens spawned after the board is sized. `src/features/board/components/tokens/PlayerToken.tsx:55-59` also leaves out `scale`, but a player's drag end changes nothing either way.
- `Store.Board.OxygenDragStart`, `Store.Board.TileDragStart`: the model reads `isSupply` and `isOnDeck` from the current state, so a second drag start of the same token spawns nothing. In the program, drag end does not notify listeners (`src/features/board/store.ts:160`), so the component keeps its old props until the next spawn notifies. A supply oxygen token or a deck tile that is picked up a second time before then still reads `isSupply` (`src/features/board/components/tokens/OxygenToken.tsx:53`) or `isOnDeck` (`src/features/board/components/tokens/TileToken.tsx:67`) as true, and spawns a second replacement.
- `Interact.SnapTargetsAreAnchors`, `Interact.TargetsOfFlatten`: these hold for axis-aligned rectangles. For any other quadrilateral, `rectToCell` still anchors at the left-top corner plus half the width, which is not the midpoint of its top edge.
- The gesture library and rendering are not modelled: interactjs snapping to the nearest target, movement restriction, the pixel offsets of `onmove`, framer-motion flips and styles. `Interact.SnapTargets` models only the list of targets offered.
- Asset loading is not modelled. This covers the `import.meta.glob` import and the locale-dependent `localeCompare` sort in `loadPathTileFronts`. The catalogue is an opaque sequence of faces, and image references are their file names.
- Parsing the board description from JSON is not modelled. The raw `GridInfo` is a parameter of `Grid.BuildGridSummary`.
- `Interact.OrderedTokensListValues`, `Interact.ViewsStackBottomUp`: the enumeration order of `Object.values` is the parameter `values`. The lemmas state what holds for any enumeration of the map.
- `Store.Merge`: an update can name only the fields the callers send: `position`, `zIndex`, `isSupply`, `isFaceUp` and `isOnDeck`. The source's `Partial<GameToken>` could also overwrite `id`, `kind`, `asset`, `size`, `front` and the other fields; no caller does. An update field that the token's kind does not have (say `isSupply` on a tile) is dropped rather than added to the record. No handler sends such a field.
- `Store.Board.SpawnTile`: the deck index is an integer. A fractional index finds no queue in the source and is a no-op there as well.
- `Interact.Scale`: a board size of NaN is not modelled.
- The view-only files are not part of this model: `types.ts`, `BoardScene.tsx`, `BaseBoard.tsx`, `main.tsx` and `app.tsx`.
