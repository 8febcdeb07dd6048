# Card board and map tracker of a roguelike deck game, in Dafny

This project models three pieces of the game's C# code and proves what they
do:

- **The weighted draw list** (`GameBoardCardList<T>`, module `CardLists`).
  It is an append-only list of (target, weight) entries. `Get` sums the
  weights and scales a uniform value in [0, 1] by the total to get a pick.
  It then walks the entries, subtracting weights from the pick, and returns
  the first entry whose weight exceeds what is left, or `default` when none
  does. The model proves that, for any weights, the entry returned is the
  first one whose cumulative weight exceeds the pick. For non-negative
  weights (so the pick is non-negative), it also proves that `default` comes
  back exactly when the pick reaches the total, and that a zero-weight entry
  is never returned. For non-negative weights, `Get` returns `default` exactly when
  the total is zero or the uniform value is exactly 1.0. Unity's
  `Random.value` includes 1.0, so that upper edge really does fall through
  to `default`.
- **The board's card bookkeeping** (`GameBoard`, module `Board`). This
  covers the weighted list built from the configured blueprints, the board
  fill, and the two skill-card lists (available and used) that pick-up and
  reset move blueprints between. It also covers the per-type card count,
  the "no Normal card" and "no skill card" checks, and the retry loop that
  picks a random Normal card.
- **The map path tracker** (`MapPlayerTracker`, module `MapTracking`). A
  click on a map node is ignored while the tracker is locked. With an empty
  path, only a node on the first row is accepted. Otherwise a node is
  accepted only along an outgoing edge of the last visited node. An accepted
  node is appended to the map's path, and the lock takes the
  `lockAfterSelecting` setting. Entering a node loads the scene of its type.

Every random number the C# code asks Unity for is a parameter of the model:

- the `Random.value` of `Get` and of each card of the board fill;
- the `Random.Range` index of the skill-card pick-up;
- the indices tried by the retry loop for a Normal card.

The current map (`MapManager.Instance.CurrentMap`) and the player's deck
(`Player.Instance`, absent or present) are parameters too. Weights are exact
reals.

Files: `wrappers.dfy` (Option), `card_list.dfy`, `game_board.dfy`,
`map_tracker.dfy`.

## Model

| member | source | states |
|---|---|---|
| `CardLists.GameBoardCardList.IsEmpty` | Battle/GameBoard/GameBoardCardList.cs:10 | true iff the list holds no entry |
| `CardLists.GameBoardCardList.Add` | Battle/GameBoard/GameBoardCardList.cs:32-35 | appends exactly one (target, weight) entry at the end; earlier entries are unchanged |
| `CardLists.GameBoardCardList.Get` | Battle/GameBoard/GameBoardCardList.cs:37-66 | the result is the draw for the pick `value * total`, as the specification function `Draw` defines it; the list is not modified |
| `CardLists.FirstCoverFrom` | Battle/GameBoard/GameBoardCardList.cs:50-62 | the walk from entry `k` stops, if at all, at an entry at or after `k` |
| `CardLists.Draw` | Battle/GameBoard/GameBoardCardList.cs:50-65 | any non-default result is the target of some entry of the list |
| `CardLists.FirstCoverFromSpec` | Battle/GameBoard/GameBoardCardList.cs:50-62 | once no earlier entry covers the pick, the walk from `k` stops at the first entry that covers it, or at none when no entry does |
| `CardLists.ChooseIsFirstCover` | Battle/GameBoard/GameBoardCardList.cs:48-65 | for any weights, the chosen index is `i` iff `i` is the smallest index whose cumulative weight exceeds the pick; `default` iff no cumulative weight does |
| `CardLists.CumulativeMonotone` | Battle/GameBoard/GameBoardCardList.cs:39-45 | with non-negative weights, cumulative weights never decrease along the list |
| `CardLists.TotalNonNegative` | Battle/GameBoard/GameBoardCardList.cs:39-45 | with non-negative weights, the total weight is non-negative |
| `CardLists.DrawDefaultIff` | Battle/GameBoard/GameBoardCardList.cs:50-65 | with non-negative weights and a non-negative pick, the result is `default` iff the pick is at least the total, which includes the empty and the all-zero list |
| `CardLists.DrawSkipsZeroWeight` | Battle/GameBoard/GameBoardCardList.cs:52 | for a non-negative pick, the chosen entry has positive weight, so a zero-weight entry is never returned |
| `CardLists.ScaleReachesTotal` | Battle/GameBoard/GameBoardCardList.cs:48 | a value in [0, 1] times a non-negative total is non-negative, and reaches the total only when the value is 1.0 or the total is 0 |
| `CardLists.GetDefaultIff` | Battle/GameBoard/GameBoardCardList.cs:37-66 | with non-negative weights and `value` in [0, 1], `Get` returns `default` iff the total is 0 or `value` is exactly 1.0 |
| `Board.CountOfTypeBound` | Battle/GameBoard/GameBoard.cs:154-167 | the number of cards of a type is at most the number of cards |
| `Board.CountOfTypeZeroIff` | Battle/GameBoard/GameBoard.cs:154-167 | the count of a type is zero iff no card has that type |
| `Board.CountOfTypeAppend` | Battle/GameBoard/GameBoard.cs:154-167 | counting distributes over concatenation of card lists, so the board fill adds to each type's count exactly the drawn cards of that type |
| `Board.CountOfTypeAppendAll` | Battle/GameBoard/GameBoard.cs:154-167 | for every detail type at once, the count over two appended card lists is the sum of their counts |
| `Board.IndexOf` | Battle/GameBoard/GameBoard.cs:134 | the index found holds `x`, and no earlier element does: it is the first occurrence |
| `Board.RemoveFirst` | Battle/GameBoard/GameBoard.cs:134 | `List.Remove` drops exactly the first occurrence of `x`, keeping the rest in order, and leaves the list alone when `x` is absent; the multiset loses one `x` |
| `Board.PickUpThenResetRestores` | Battle/GameBoard/GameBoard.cs:128-148 | a pick-up followed by a reset of the card picked gives the skill cards and the used cards back their former contents as multisets |
| `Board.WeightedEntries` | Battle/GameBoard/GameBoard.cs:62-68 | one entry per configured blueprint, in order, weighted by the blueprint's own weight |
| `Board.DrawnCards` | Battle/GameBoard/GameBoard.cs:83-95 | one card per draw value, in order, each set with the blueprint the weighted list draws for that value |
| `Board.DrawnBlueprintIsConfigured` | Battle/GameBoard/GameBoard.cs:62-68 | a blueprint drawn from the list built from the configured blueprints is one of them |
| `Board.DrawnCardsHaveBlueprints` | Battle/GameBoard/GameBoard.cs:83-95 | with non-negative weights, a positive total and draw values below 1.0, every card the fill places has a blueprint |
| `Board.GameBoard.constructor` | Battle/GameBoard/GameBoard.cs:38-48 | the board starts empty, with the weighted list built from the configured blueprints |
| `Board.GameBoard.ProbabilityList` | Battle/GameBoard/GameBoard.cs:62-68 | appends each configured blueprint with its weight to the weighted list |
| `Board.GameBoard.SetBoard` | Battle/GameBoard/GameBoard.cs:73-99 | when a player exists, appends the deck to the skill cards in deck order; then appends exactly `rowCount * columnCount` cards, each drawn from the weighted list; the count of every detail type grows by exactly the count among the drawn cards; nothing else changes |
| `Board.GameBoard.RandomCardFromNormal` | Battle/GameBoard/GameBoard.cs:105-122 | returns null iff no card is Normal; a returned card is a Normal card of the board, namely the one at the first tried index that holds a Normal card |
| `Board.GameBoard.SkillCardRandomPickUp` | Battle/GameBoard/GameBoard.cs:128-138 | returns the skill card at the drawn index, removes its first occurrence from the skill cards and appends it to the used cards; the skill cards shrink by one and the combined multiset is unchanged |
| `Board.GameBoard.SkillCardReset` | Battle/GameBoard/GameBoard.cs:144-148 | removes the first occurrence of the card from the used cards, if any, and always appends it to the skill cards; the combined multiset is unchanged iff the card was used, and otherwise gains that card |
| `Board.GameBoard.ObstacleCardsCount` | Battle/GameBoard/GameBoard.cs:154-167 | returns the number of cards of the given detail type, which is at most the number of cards |
| `Board.GameBoard.IsSkillCardEmpty` | Battle/GameBoard/GameBoard.cs:224-229 | true iff the skill-card list is empty |
| `Board.GameBoard.AllCardsIsNotNormal` | Battle/GameBoard/GameBoard.cs:235-246 | true iff no card on the board is Normal, which is iff the Normal count is zero |
| `MapTracking.EnterNode` | Map/MapPlayerTracker.cs:58-99 | enemy nodes open the battle scene with an encounter from their own pool: a minor enemy from the first-encounter pool, an elite from the elite pool, the boss from the boss pool; the starting and mystery nodes open the mystery scene with the start event or a random event; the rest site, treasure and shop nodes open their own scene with nothing set up |
| `MapTracking.AttainableIffExtends` | Map/MapPlayerTracker.cs:25-40 | on a valid path, which starts on row 0 and follows outgoing edges, a point is accepted iff appending it keeps the path valid |
| `MapTracking.MapPlayerTracker.constructor` | Map/MapPlayerTracker.cs:14-19 | the tracker starts unlocked |
| `MapTracking.MapPlayerTracker.SelectNode` | Map/MapPlayerTracker.cs:21-42 | accepts iff unlocked and attainable: with an empty path, iff the node is on row 0, otherwise iff the last visited point has a node whose outgoing edges include the selected point. An accepted node is appended to the path, the lock becomes `lockAfterSelecting`, and its entry is scheduled. A rejected or locked selection changes neither path nor lock. A valid path stays valid |
| `MapTracking.MapPlayerTracker.SendPlayerToNode` | Map/MapPlayerTracker.cs:44-56 | sets the lock to `lockAfterSelecting`, appends the node's point to the path, and schedules the entry into the node |

## Left out

- Floating point: weights and draws are exact reals. Rounding in the float accumulation of `Get` is not modelled.
- `CardLists.GameBoardCardList.Add`: like the source, it accepts negative weights. With a negative weight the pick can be negative or the total smaller than an earlier cumulative weight, and then `default` and zero-weight entries behave differently; the model only characterises that case through `ChooseIsFirstCover`, which holds for any weights.
- `CardLists.GameBoardCardList.Get`: `Random.value` is a parameter. The model does not constrain it to [0, 1]; the lemmas that need this range state it.
- `Board.GameBoard.RandomCardFromNormal`: the `while (true)` retry loop becomes a walk over the supplied indices. When they run out with no hit, the result is `RetriesExhausted`. In the source the loop would keep spinning, or `InfiniteLoopDetector`, which is not part of this model, would stop it.
- `Board.GameBoard.SkillCardRandomPickUp`: requires a non-empty skill-card list, because the source indexes the list and throws when it is empty. The error path is not modelled.
- Board cards are values, so distinct card objects with the same blueprint are indistinguishable. `GameBoardCard.Set` is not part of this model, so a card whose draw fell through to `default` is modelled as a card with no blueprint and no detail type.
- The detail types other than Normal are `Other(code)`, since the enum's declaration is not part of this model. Map node types and scene names are the ones `EnterNode` names.
- `rowCount` and `columnCount` are natural numbers. With a negative serialized value the source's fill loops run zero times, which the model does not cover.
- World positions (`StartCellPosition`, `BoardToWorldPosition`), prefab instantiation, transforms and parenting are engine calls and are left out.
- The coroutine phases (`WaitForMovement`, `WaitForSelection`, `RespawnCards`, `DespawnSelection`, `SkillCardSpawn`, `ObstacleCardSpawn`) and `GetSelectCards` only delegate to input, movement and spawning classes that are not part of this model.
- `SendPlayerToNode` sound effects, map view refresh, swirl animation and the DOTween delay are left out. The delayed `EnterNode` call is returned as the entry it will run. `EnterNode` hands the `GameManager` the pool an encounter or event comes from; the `Random.Range` pick inside that pool (`MapManager`) and the scene loading are left out.
- Map generation, saving and loading (`MapManager`), the rewards system, the inventory and tooltip UI are outside the modelled core.
