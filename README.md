# Hex-war rules engine in Dafny

This project models the rules engine of a Risk-style territory game and proves properties of it. Players own territories on a map, receive reinforcements each turn, attack neighbouring territories, fortify, and win by holding the whole map. The repository holds three generations of the engine, and each one is a separate group of modules here:

- **The original all-in-one game** (`src/main.js`), module `MainJs`:
  - the global `state` is the class `MainJs.Game`;
  - the battle roll scales with the troops;
  - reinforcements have no zero-territory case;
  - the CPU player deploys at random and makes up to three random raids.
- **The TypeScript refactor**:
  - `Logic` is the pure core of `src/core/logic.ts`: counting, reinforcements, the battle outcome, move validation and the adjacency scan;
  - `Ai` is the decision engine of `src/core/ai.ts`: map analysis, greedy deployment, scored attacks and fortification for three difficulties;
  - `MainTs` is the driver of `src/main.ts`, whose global `state` is the class `MainTs.Game`.
- **The dice-and-cards variant** (`js/*`):
  - `Constants` is the classic 42-territory map and its continents;
  - `Cards` covers the deck, the Fisher-Yates shuffle and three-card hands;
  - `JsState` is the shared store, the class `JsState.GameState`;
  - `JsGame` covers setup, turns, clicks, the classic dice battle, the owned-path search and the winner test;
  - `JsAi` is the computer player.
- **Shared helpers**:
  - `Grid` is the grid scan both adjacency builders use;
  - `Sorting` covers numeric `sort` with subtraction comparators;
  - `Rand` represents `Math.random()`;
  - `Util` holds Option, Max/Min, duplicate-free sequences and sums.

Conventions used throughout:

- **Randomness.** Every `Math.random()` call is a draw from an explicit stream `rng: nat -> real` whose values lie in [0, 1). A counter threads through the stream in the order the source draws.
- **Territory records.**
  - A `Record<number, Territory>` is a sequence in ascending id order, the order `Object.values` visits integer keys in.
  - A `Set` is a sequence without repeats, in insertion order.
  - In the `js/*` variant, territory keys are the 42 values of `Constants.Tid`, and the store keeps the keys' insertion order beside the records.
- **Code shape.** Code that mutates state is a class with `modifies` clauses, or a method with loops. Most methods are proved against a specification function, and the properties the game promises are lemmas about those functions. A few, such as `Grid.ScanAdjacency`, are instead specified directly by the properties they promise (there, that the neighbour lists are sound and complete).
- **Timers.** Timers run their callbacks as sequential steps. Where a timer starts another actor's work, a method returns a flag instead (`endTurnDue`, `cpuDue`, `aiTurnDue`).

## Model

| member | source | states |
|---|---|---|
| Util.AddUnique | src/core/logic.ts:123-127 | `Set.add` on an insertion-ordered set: the members are the old ones plus `x`, no duplicate appears, a present `x` changes nothing and a new one goes at the end |
| Rand.ScaleIsProduct | src/core/logic.ts:46 | the repeated addition used for `random * n` is the real product |
| Rand.Scale | src/core/logic.ts:46 | `random * n` is non-negative and, for `n > 0`, below `n` |
| Rand.Index | src/main.js:701-704 | `Math.floor(Math.random() * n)` is a valid index below `n` |
| Rand.Die | js/game.js:222-224 | one die of `rollDice` is between 1 and 6 |
| Logic.AscendingSameIds | src/core/logic.ts:6-8 | whether ids ascend depends on the ids only, so boards that differ in owners and troops are equally well formed |
| Logic.AscendingPairs | src/core/logic.ts:6-8 | on an ascending board every earlier id is below every later one |
| Logic.PairsAscending | src/core/logic.ts:6-8 | pairwise ascending ids make an ascending board (the converse of `AscendingPairs`) |
| Logic.Lookup | src/core/logic.ts:90-91 | `territories[id]` is missing exactly when no entry has the id, and otherwise is an entry with that id |
| Logic.LookupUnique | src/core/logic.ts:90-91 | on a valid board an id names one entry, so looking up any entry's id finds that entry |
| Logic.CountTerritories | src/core/logic.ts:6-8 | the count is at most the board size and zero exactly when the player owns no entry |
| Logic.ValidTail | src/core/logic.ts:6-8 | dropping the first entry keeps the board valid, and every remaining id is above the dropped one |
| Logic.ValidInit | src/core/logic.ts:6-8 | dropping the last entry keeps the board valid, and every remaining id is below the dropped one |
| Logic.CountTerritoriesIsOwnedIds | src/core/logic.ts:6-8 | on a valid board the count is the number of distinct ids the player owns |
| Logic.OwnedIdsSplit | src/core/logic.ts:6-8 | the owned ids split into the first entry's and the rest's |
| Logic.Base | src/core/logic.ts:21 | the base is at least 3 and a third of the territories rounded down: `3 * b <= max(9, count) < 3 * b + 3` |
| Logic.CalculateReinforcements | src/core/logic.ts:13-34 | the loop over the continents returns the value of the reinforcement rule `Reinforcements` |
| Logic.UnpayingContinentsIgnored | src/core/logic.ts:26-27 | a continent listing nothing, or listing an id the map lacks, adds no bonus wherever it stands in the table |
| Logic.PrependUnpaying | src/core/logic.ts:24-32 | a continent that does not pay leaves the bonus sum unchanged when put in front |
| Logic.Reinforcements | src/core/logic.ts:13-34 | definition by its body: 0 without territory, else max(3, n/3) plus owned-continent bonuses; `ReinforcementsAtLeastThree` states its lower bound |
| Logic.ReinforcementsAtLeastThree | src/core/logic.ts:18-21 | a player who owns any territory receives at least three when no bonus is negative |
| Logic.BonusNonNegative | src/core/logic.ts:24-32 | with no negative bonus the bonus sum is non-negative |
| Logic.Mock | tests/core.test.ts:13-21 | the mock board holds `n` territories `lo..lo+n-1` of one player with one troop each |
| Logic.MockCount | tests/core.test.ts:28-31 | the player owns every territory of the mock board |
| Logic.ReinforcementExampleEmpty | tests/core.test.ts:46-48 | a player with no territories receives 0 |
| Logic.ReinforcementExampleBase | tests/core.test.ts:50-58 | without a bonus, `n` territories give `max(3, floor(n / 3))` (5 give 3, 12 give 4) |
| Logic.ReinforcementExampleBonus | tests/core.test.ts:60-76 | holding both territories of a 5-bonus continent gives 8; losing one of them leaves 3 |
| Logic.CalculateBattleOutcome | src/core/logic.ts:40-80 | success exactly when the attack roll beats the defence roll; a victory wipes out the defender and moves half the remaining attackers, at least one; a defeat costs half the attackers rounded up and never more than they have |
| Logic.AttackerSurvives | src/core/logic.ts:56-71 | an attacker of two or more keeps at least one troop whatever the rolls |
| Logic.AttackRoll | src/core/logic.ts:46 | definition by its body: the floor of the draw times ten per troop, plus the bonus; `RollRanges` bounds it |
| Logic.DefenceRoll | src/core/logic.ts:48 | definition by its body: the floor of the draw times ten per troop, plus five; `RollRanges` bounds it |
| Logic.RollRanges | src/core/logic.ts:46-48 | the attack roll lies in `[bonus, 10 * att + bonus)` and the defence roll in `[5, 10 * def + 5)` |
| Logic.ScaledFloorRange | src/core/logic.ts:46-48 | `floor(r * n * 10)` lies in `[0, 10 * n)` for a draw `r` |
| Logic.BattleExamples | tests/core.test.ts:79-131 | the four battle cases of the tests: 10 beat 5 and move 4, 3 beat 1 and move 1, 10 lose 5, a lone attacker loses its troop |
| Logic.IsValidMoveMeans | src/core/logic.ts:85-93 | on a board with distinct ids a move is valid exactly when the source lists the target as a neighbour |
| Logic.IsValidMove | src/core/logic.ts:85-93 | false for a missing source; otherwise whether the source lists the target (`IsValidMoveMeans`) |
| Logic.GenerateAdjacencyMap | src/core/logic.ts:98-134 | the scan's map is sound (land keys, no repeats, symmetric links between touching cells of different ids) and complete (every land id a key, every touching pair linked) |
| Grid.Link | src/core/logic.ts:123-127 | adding a link and its back-link keeps the neighbour sets free of repeats and adds exactly the two edges |
| Grid.LinkSound | src/core/logic.ts:120-128 | linking two touching land cells of different ids keeps the scan sound |
| Grid.RegisterSound | src/core/logic.ts:110-112 | registering a land id with an empty set keeps the scan sound |
| Grid.LinkedUpToStep | src/core/logic.ts:116-130 | trying a direction keeps every link made by the directions before it and adds the one it finds |
| Grid.DoneBeforeGrows | src/core/logic.ts:105-132 | the cells already scanned stay fully linked as the scan goes on |
| Grid.ScanAdjacency | src/core/logic.ts:98-134 | the nested loop returns a sound and complete map of the grid |
| Grid.DoneAllComplete | src/core/logic.ts:105-132 | once every cell is scanned, every land id is a key and every two touching cells of different ids are linked |
| Grid.ScanRow | src/core/logic.ts:106-131 | one row of the scan keeps the map sound and links every cell of the row |
| Grid.ScanCell | src/core/logic.ts:107-130 | one cell of the scan registers its id and links it to each touching land cell of another id, keeping the map sound |
| Ai.OwnedMembers | src/core/ai.ts:47-48 | `owned` holds exactly the scanned territories the player owns |
| Ai.BordersMembers | src/core/ai.ts:52-61 | `borders` holds exactly the player's territories with an existing enemy neighbour |
| Ai.InternalMembers | src/core/ai.ts:60-65 | `internal` holds exactly the player's territories without an enemy neighbour |
| Ai.ThreatsKeys | src/core/ai.ts:60-62 | `threats` has a key for each owned border and no other |
| Ai.BordersInternalPartition | src/core/ai.ts:47-65 | borders and internal territories split the owned ones: as multisets they add up to `owned` |
| Ai.ThreatsExact | src/core/ai.ts:49-62 | on a valid board the threat of an owned border is the troop sum of its enemy neighbours, and nothing else has a threat |
| Ai.ThreatsOfLast | src/core/ai.ts:49-62 | the threat entry of the last territory scanned, as in `ThreatsExact` |
| Ai.ThreatsOfEarlier | src/core/ai.ts:49-62 | the threat entry of an earlier territory survives the later ones, as in `ThreatsExact` |
| Ai.ChokepointsAreHeldBorders | src/core/ai.ts:70-84 | every chokepoint is an owned border listed in a continent the player holds but for at most one territory |
| Ai.ChokeOfIsHeldBorder | src/core/ai.ts:76-82 | what the scan of one continent marks is a listed, owned border |
| Ai.Analyze | src/core/ai.ts:15-87 | definition by its body: owned, borders, internal, threats, statuses and chokepoints; `AnalyzeMap` ties the method to it |
| Ai.AnalyzeMap | src/core/ai.ts:15-87 | the two passes compute the analysis `Analyze` defines (owned, borders, internal, threats, statuses, chokepoints) |
| Ai.ScanTerritories | src/core/ai.ts:37-67 | the territory pass yields the owned, border and internal lists, the threats, and per continent the number of its listed territories the player owns |
| Ai.CountContinents | src/core/ai.ts:39-45 | the continent step for one more territory updates each owned count to the longer scan's |
| Ai.MarkContinents | src/core/ai.ts:70-84 | the continent pass yields each continent's status and the chokepoint list |
| Ai.ChokeScan | src/core/ai.ts:77-82 | the scan of one continent's list yields its owned borders in list order |
| Ai.ScanNeighbours | src/core/ai.ts:52-58 | the neighbour loop finds whether an enemy neighbour exists and the troop sum of the enemy neighbours |
| Ai.FirstMax | src/core/ai.ts:176-197 | the running-best scan returns an index in range or -1 |
| Ai.FirstMaxIsFirstBest | src/core/ai.ts:172-197 | the scan with a strict `>` finds the first eligible maximum: nothing eligible beats it, nothing eligible before it ties it, and it is -1 only when nothing beats the floor |
| Ai.DeployScore | src/core/ai.ts:137-169 | the static deployment score of an owned territory is never negative |
| Ai.DynScore | src/core/ai.ts:179-188 | the diminished score is never negative and never above the static score when that is non-negative |
| Ai.DynScores | src/core/ai.ts:176-188 | one diminished score per owned territory |
| Ai.GreedyPick | src/core/ai.ts:172-197 | the unit goes to an owned territory, falling back to `owned[0]` |
| Ai.GreedyPickIsBest | src/core/ai.ts:172-197 | each unit goes to a territory whose diminished score is the highest, the earliest among equals |
| Ai.Greedy | src/core/ai.ts:172-199 | the greedy run keeps one count per owned territory |
| Ai.GreedyAddsN | src/core/ai.ts:172-199 | the greedy run places exactly `n` units and takes none away |
| Ai.GreedyStep | src/core/ai.ts:172-197 | a run of `n` units is one unit at the pick followed by a run of `n - 1` |
| Ai.EasySpread | src/core/ai.ts:108-114 | the EASY spread keeps one count per owned territory |
| Ai.EasySpreadAddsN | src/core/ai.ts:108-114 | the EASY spread places exactly `n` units and takes none away |
| Ai.SumIncrement | src/core/ai.ts:111-112 | adding one unit to one count raises the sum by one |
| Ai.DeploymentsFacts | src/core/ai.ts:111-112 | the deployment record sums to the counts it came from and holds only positive amounts for owned ids |
| Ai.Zeros | src/core/ai.ts:104 | the empty record: `n` zero counts |
| Ai.Scores | src/core/ai.ts:137-169 | one static score per owned territory, never negative |
| Ai.OwnedThreats | src/core/ai.ts:182 | one threat per owned territory, 0 for a territory without one |
| Ai.DeploymentsConserve | src/core/ai.ts:93-294 | every unit is placed on a territory of the player's: the amounts sum to the reinforcements and every key is owned; nothing is placed for a player with no territory or an unknown difficulty |
| Ai.GetDeployments | src/core/ai.ts:93-294 | the method returns the record `DeploySpec` defines and uses one draw per unit under EASY, none otherwise |
| Ai.DeploySpec | src/core/ai.ts:93-294 | definition by its body: the deployment record per difficulty; `DeploySpecCases` and `DeploymentsConserve` state its cases and totals |
| Ai.DeploySpecCases | src/core/ai.ts:101-293 | the record per case: empty without territory or difficulty, the random spread under EASY, the greedy run over the static scores under MEDIUM and HARD |
| Ai.EasyDeploy | src/core/ai.ts:108-114 | the EASY loop gives the random spread and uses `n` draws |
| Ai.PickTargetContinent | src/core/ai.ts:118-135 | the status loop picks the target continent `TargetContinent` defines (MEDIUM by share, HARD by share plus bonus weight) |
| Ai.ScoreOwned | src/core/ai.ts:137-169 | the scoring loop yields the static scores `Scores` defines |
| Ai.GreedyDeploy | src/core/ai.ts:172-199 | the `while (remaining > 0)` loop yields the greedy run |
| Ai.GreedyUnit | src/core/ai.ts:173-197 | one pass places one unit and leaves the rest of the same greedy run |
| Ai.PickUnit | src/core/ai.ts:176-196 | the `for` loop with its fallback picks the greedy pick |
| Ai.Attackers | src/core/ai.ts:306 | `myTerritories` holds exactly the player's territories with more than one troop |
| Ai.Tally | src/core/ai.ts:334-344 | the target owner's share of a continent is at most its size, which is at most the board |
| Ai.PairStep | src/core/ai.ts:313-419 | scoring one neighbour uses draws forward only |
| Ai.Pairs | src/core/ai.ts:313-419 | scoring the neighbours of one source uses draws forward only |
| Ai.Candidates | src/core/ai.ts:312-419 | scoring all sources uses draws forward only |
| Ai.InsertDesc | src/core/ai.ts:424 | inserting a candidate adds exactly it to the multiset of candidates |
| Ai.SortDesc | src/core/ai.ts:424 | the sort keeps the number of candidates |
| Ai.SortDescPermutes | src/core/ai.ts:424 | the sort is a permutation of the candidates |
| Ai.InsertDescKeepsOrder | src/core/ai.ts:424 | inserting keeps the scores descending; the new head is the inserted candidate exactly when it beats the old head strictly |
| Ai.HeadBounds | src/core/ai.ts:424 | the head of a descending sequence scores at least as much as every entry |
| Ai.ConsDescending | src/core/ai.ts:424 | an entry scoring at least as much as every entry can go in front of a descending sequence |
| Ai.SortDescDescending | src/core/ai.ts:424 | the sort leaves the scores descending |
| Ai.SortHead | src/core/ai.ts:424 | the head after the stable sort is the first candidate with the highest score |
| Ai.ScoresBelow | src/core/ai.ts:424 | a bound on the front and on the last entry bounds every score |
| Ai.PairsMembers | src/core/ai.ts:313-419 | every candidate from a source targets an existing enemy neighbour with a positive score, under MEDIUM and HARD its `BattleScore`; and under MEDIUM and HARD every enemy neighbour with a positive score is found |
| Ai.PairsSound | src/core/ai.ts:313-419 | every candidate found is a positive-scored pair from the source to an existing enemy neighbour |
| Ai.PairStepSound | src/core/ai.ts:313-419 | one neighbour step keeps what was found and adds at most a positive candidate for that neighbour |
| Ai.PairsComplete | src/core/ai.ts:313-419 | under MEDIUM and HARD no enemy neighbour with a positive score is missed |
| Ai.CandidatesMembers | src/core/ai.ts:312-419 | `PairsMembers` for every source in the list |
| Ai.AttackIsLegal | src/core/ai.ts:299-441 | a chosen attack starts from the player's territory with more than one troop and targets an existing adjacent enemy territory; an unknown difficulty never attacks |
| Ai.ChosenCandidate | src/core/ai.ts:421-440 | whatever the difficulty picks is one of the scored candidates |
| Ai.HardAttackIsBest | src/core/ai.ts:366-440 | HARD attacks with a pair no other legal pair outscores, and does not attack exactly when no legal pair scores above 0 |
| Ai.AttackSafety | src/core/ai.ts:325-418 | a positive score needs more attackers than defenders under MEDIUM, and a margin of more than one under HARD, unless the defender's owner holds the whole continent |
| Ai.NextAttack | src/core/ai.ts:299-441 | definition by its body: the sorted candidates and the pick; `AttackIsLegal` and `HardAttackIsBest` state its legality and optimality |
| Ai.GetNextAttack | src/core/ai.ts:299-441 | the method returns the move and draw count `NextAttack` defines |
| Ai.Pick | src/core/ai.ts:421-440 | definition by its body: a random candidate (EASY), one of the first three (MEDIUM), the head otherwise; `AttackIsLegal` states that the pick is a candidate |
| Ai.PickAttack | src/core/ai.ts:421-440 | the final `if` chain picks as `Pick` defines: a random candidate (EASY), one of the top three (MEDIUM), the head (HARD) |
| Ai.AttackersReadable | src/core/ai.ts:306-313 | every pair from an attacking territory can be scored |
| Ai.CollectCandidates | src/core/ai.ts:312-419 | the outer loop collects the candidates `Candidates` defines |
| Ai.ScoreTargets | src/core/ai.ts:313-419 | the inner loop collects the candidates `Pairs` defines |
| Ai.PairsSnoc | src/core/ai.ts:313-419 | scoring one more neighbour is one more `PairStep` |
| Ai.ScorePair | src/core/ai.ts:314-418 | the body of the inner loop is one `PairStep` |
| Ai.TallyContinent | src/core/ai.ts:334-344 | the count loop yields the target owner's share of the continent and its size, as `Tally` defines |
| Ai.SourcesReadable | src/core/ai.ts:455-461 | the sources, internal territories followed by borders, are exactly the player's territories |
| Ai.BestMoveIsFirstBest | src/core/ai.ts:458-496 | the running best is the first move with the highest positive score among those with troops to move, and there is none exactly when no move scores above 0 |
| Ai.BestMoveAppend | src/core/ai.ts:463-493 | the running best over one more move is one more `FortStep` |
| Ai.TargetMovesMembers | src/core/ai.ts:466-491 | every move from a source goes to one of its owned neighbours with all but one troop, and every owned neighbour is considered |
| Ai.FortMovesSound | src/core/ai.ts:463-493 | every move considered comes from a source with more than one troop |
| Ai.FortMovesComplete | src/core/ai.ts:463-493 | every move from a source with more than one troop to an owned neighbour is considered |
| Ai.FortifyIsBest | src/core/ai.ts:446-546 | EASY never fortifies; otherwise the move takes all but one troop between adjacent territories of the player's, none outscores it, and there is none exactly when no move scores above 0 |
| Ai.FortifyCandidates | src/core/ai.ts:455-546 | the moves weighed are exactly those of all but one troop from a territory of the player's to an adjacent one of theirs |
| Ai.Fortify | src/core/ai.ts:446-546 | definition by its body: none for EASY, else the best-scoring move; `FortifyIsBest` and `FortifyCandidates` state its optimality |
| Ai.GetFortification | src/core/ai.ts:446-546 | the method returns the move `Fortify` defines as (source, target, amount), or none |
| Ai.BestFortification | src/core/ai.ts:463-493 | the outer loop keeps the best of all moves considered |
| Ai.FortMovesStep | src/core/ai.ts:463-493 | the moves of one more source are appended to those before |
| Ai.FortifySource | src/core/ai.ts:463-465 | a source with at most one troop is skipped; otherwise its moves are weighed |
| Ai.FortifyFrom | src/core/ai.ts:466-491 | the inner loop continues the running best over the moves of one source |
| Ai.TargetMovesStep | src/core/ai.ts:466-491 | the moves to one more neighbour are appended to those before |
| Ai.ConsiderTarget | src/core/ai.ts:467-490 | an owned neighbour replaces the running best only when it scores above 0 and beats it strictly |
| Cards.SuitRow | js/cards.js:10-12 | the inner loop's cards: one per rank of the suit, in rank order |
| Cards.Deck | js/cards.js:7-15 | definition by its body: one card per (suit, rank), suit after suit; its properties are `DeckLength`, `DeckCell` and `DeckMembers` |
| Cards.CreateDeck | js/cards.js:7-15 | the nested loops build the deck `Deck` defines, suit by suit |
| Cards.DeckLength | js/cards.js:7-15 | the deck has one card per (suit, rank) pair: `|suits| * |ranks|` cards |
| Cards.DeckCell | js/cards.js:9-13 | the card of suit `i` and rank `j` sits at position `i * |ranks| + j` |
| Cards.MulStep | js/cards.js:9-13 | a position `i * r + j` of an earlier row lies before the end of the deck |
| Cards.MulMonotone | js/cards.js:9-13 | row offsets grow with the row |
| Cards.DeckMembers | js/cards.js:7-15 | a card is in the deck exactly when its suit and its rank are listed |
| Cards.Swap | js/cards.js:24 | the destructuring swap keeps the length |
| Cards.ShuffleDeck | js/cards.js:21-26 | the in-place loop leaves the array as the Fisher-Yates function of its old contents, using one draw per position above 0 |
| Cards.SwapPermutes | js/cards.js:24 | a swap is a permutation |
| Cards.FisherYates | js/cards.js:21-26 | definition by its body: the swap pass from the last position down to 1, one draw per step; `FisherYatesPermutes` proves it a permutation |
| Cards.FisherYatesPermutes | js/cards.js:21-26 | whatever the draws, the shuffled deck is a permutation of the input of the same length |
| Cards.RankValue | js/cards.js:33-36 | a rank that reads as a number is never negative |
| Cards.Numeral | js/cards.js:34 | the decimal spelling of a number is a numeral |
| Cards.NumeralRoundTrip | js/cards.js:33-36 | reading a number's decimal spelling back as a rank gives the number |
| Cards.FaceValues | js/cards.js:35 | J, Q, K and A read 11, 12, 13 and 14 |
| Cards.Values | js/cards.js:46 | one rank value per card, in hand order |
| Cards.Ranks | js/cards.js:46 | the sorted rank values have one entry per card |
| Cards.WrongSizeIsNothing | js/cards.js:44 | a hand of other than three cards is no set |
| Cards.RanksAre | js/cards.js:46 | any ascending arrangement of the hand's values is the sorted rank list |
| Cards.ThreeOfOneRank | js/cards.js:58-64 | three cards of one rank are three of a kind, whatever the suits |
| Cards.OnePair | js/cards.js:49-68 | two cards of one rank and a third of another are a flush when the suits agree and a pair otherwise |
| Cards.Classify | js/cards.js:49-70 | definition by its body: the checks of `evaluateHand` on sorted ranks, strongest first; `ClassifyPair` and `ClassifyDistinct` state its cases |
| Cards.ClassifyPair | js/cards.js:56-68 | the classification of a sorted rank list with one pair |
| Cards.Run | js/cards.js:53-66 | three consecutive ranks are a straight flush when the suits agree and a straight otherwise |
| Cards.AceLowRun | js/cards.js:52-66 | 2, 3 and an ace are a straight (a straight flush when the suits agree), the ace counting low |
| Cards.NoMatch | js/cards.js:49-70 | three distinct ranks that do not run are a flush when the suits agree and no set otherwise |
| Cards.ClassifyDistinct | js/cards.js:52-70 | with three distinct ranks only the straight and flush checks can succeed |
| Cards.EvaluateHand | js/cards.js:43-71 | definition by its body: nothing unless three cards, else the classification of the sorted ranks; the per-kind lemmas (`ThreeOfOneRank`, `OnePair`, `Run`, `AceLowRun`, `NoMatch`) and `EvaluateHandReorder` state its behaviour |
| Cards.EvaluateHandReorder | js/cards.js:43-71 | reordering a hand does not change its classification |
| Cards.ValuesPermute | js/cards.js:46 | two hands holding the same cards have the same rank values |
| Cards.ValuesSplice | js/cards.js:46 | taking one card out of a hand takes its value out of the values |
| Cards.SuitsPermute | js/cards.js:47-49 | two hands holding the same cards are both flushes or both not |
| Cards.SuitsFollow | js/cards.js:47-49 | a flush stays a flush under reordering |
| Constants.InContinent | js/constants.js:10-64 | the territories of a list that lie in a continent, and only those |
| Constants.Members | js/constants.js:10-64 | a continent's members are exactly the territories whose entry names it |
| Constants.AllTerritoriesExact | js/constants.js:10-64 | the map has 42 territories, each key listed once |
| Constants.AllContinentsExact | js/constants.js:66-68 | there are six distinct continents and every territory's continent is one of them |
| Constants.AdjacencySymmetric | js/constants.js:10-64 | every adjacency is listed from both ends |
| Constants.AdjacencyIrreflexive | js/constants.js:10-64 | no territory lists itself and no list names a neighbour twice |
| Constants.AlaskaLinks | js/constants.js:12 | `alaska` is not its own neighbour, lists no neighbour twice, and is listed back by each of its neighbours |
| Constants.NorthwestTerritoryLinks | js/constants.js:13 | `northwest-territory` is not its own neighbour, lists no neighbour twice, and is listed back by each of its neighbours |
| Constants.GreenlandLinks | js/constants.js:14 | `greenland` is not its own neighbour, lists no neighbour twice, and is listed back by each of its neighbours |
| Constants.AlbertaLinks | js/constants.js:15 | `alberta` is not its own neighbour, lists no neighbour twice, and is listed back by each of its neighbours |
| Constants.OntarioLinks | js/constants.js:16 | `ontario` is not its own neighbour, lists no neighbour twice, and is listed back by each of its neighbours |
| Constants.QuebecLinks | js/constants.js:17 | `quebec` is not its own neighbour, lists no neighbour twice, and is listed back by each of its neighbours |
| Constants.WesternUsLinks | js/constants.js:18 | `western-us` is not its own neighbour, lists no neighbour twice, and is listed back by each of its neighbours |
| Constants.EasternUsLinks | js/constants.js:19 | `eastern-us` is not its own neighbour, lists no neighbour twice, and is listed back by each of its neighbours |
| Constants.CentralAmericaLinks | js/constants.js:20 | `central-america` is not its own neighbour, lists no neighbour twice, and is listed back by each of its neighbours |
| Constants.VenezuelaLinks | js/constants.js:23 | `venezuela` is not its own neighbour, lists no neighbour twice, and is listed back by each of its neighbours |
| Constants.PeruLinks | js/constants.js:24 | `peru` is not its own neighbour, lists no neighbour twice, and is listed back by each of its neighbours |
| Constants.BrazilLinks | js/constants.js:25 | `brazil` is not its own neighbour, lists no neighbour twice, and is listed back by each of its neighbours |
| Constants.ArgentinaLinks | js/constants.js:26 | `argentina` is not its own neighbour, lists no neighbour twice, and is listed back by each of its neighbours |
| Constants.IcelandLinks | js/constants.js:29 | `iceland` is not its own neighbour, lists no neighbour twice, and is listed back by each of its neighbours |
| Constants.ScandinaviaLinks | js/constants.js:30 | `scandinavia` is not its own neighbour, lists no neighbour twice, and is listed back by each of its neighbours |
| Constants.GreatBritainLinks | js/constants.js:31 | `great-britain` is not its own neighbour, lists no neighbour twice, and is listed back by each of its neighbours |
| Constants.NorthernEuropeLinks | js/constants.js:32 | `northern-europe` is not its own neighbour, lists no neighbour twice, and is listed back by each of its neighbours |
| Constants.WesternEuropeLinks | js/constants.js:33 | `western-europe` is not its own neighbour, lists no neighbour twice, and is listed back by each of its neighbours |
| Constants.SouthernEuropeLinks | js/constants.js:34 | `southern-europe` is not its own neighbour, lists no neighbour twice, and is listed back by each of its neighbours |
| Constants.UkraineLinks | js/constants.js:35 | `ukraine` is not its own neighbour, lists no neighbour twice, and is listed back by each of its neighbours |
| Constants.NorthAfricaLinks | js/constants.js:38 | `north-africa` is not its own neighbour, lists no neighbour twice, and is listed back by each of its neighbours |
| Constants.EgyptLinks | js/constants.js:39 | `egypt` is not its own neighbour, lists no neighbour twice, and is listed back by each of its neighbours |
| Constants.EastAfricaLinks | js/constants.js:40 | `east-africa` is not its own neighbour, lists no neighbour twice, and is listed back by each of its neighbours |
| Constants.CongoLinks | js/constants.js:41 | `congo` is not its own neighbour, lists no neighbour twice, and is listed back by each of its neighbours |
| Constants.SouthAfricaLinks | js/constants.js:42 | `south-africa` is not its own neighbour, lists no neighbour twice, and is listed back by each of its neighbours |
| Constants.MadagascarLinks | js/constants.js:43 | `madagascar` is not its own neighbour, lists no neighbour twice, and is listed back by each of its neighbours |
| Constants.UralLinks | js/constants.js:46 | `ural` is not its own neighbour, lists no neighbour twice, and is listed back by each of its neighbours |
| Constants.SiberiaLinks | js/constants.js:47 | `siberia` is not its own neighbour, lists no neighbour twice, and is listed back by each of its neighbours |
| Constants.YakutskLinks | js/constants.js:48 | `yakutsk` is not its own neighbour, lists no neighbour twice, and is listed back by each of its neighbours |
| Constants.KamchatkaLinks | js/constants.js:49 | `kamchatka` is not its own neighbour, lists no neighbour twice, and is listed back by each of its neighbours |
| Constants.IrkutskLinks | js/constants.js:50 | `irkutsk` is not its own neighbour, lists no neighbour twice, and is listed back by each of its neighbours |
| Constants.MongoliaLinks | js/constants.js:51 | `mongolia` is not its own neighbour, lists no neighbour twice, and is listed back by each of its neighbours |
| Constants.JapanLinks | js/constants.js:52 | `japan` is not its own neighbour, lists no neighbour twice, and is listed back by each of its neighbours |
| Constants.AfghanistanLinks | js/constants.js:53 | `afghanistan` is not its own neighbour, lists no neighbour twice, and is listed back by each of its neighbours |
| Constants.ChinaLinks | js/constants.js:54 | `china` is not its own neighbour, lists no neighbour twice, and is listed back by each of its neighbours |
| Constants.MiddleEastLinks | js/constants.js:55 | `middle-east` is not its own neighbour, lists no neighbour twice, and is listed back by each of its neighbours |
| Constants.IndiaLinks | js/constants.js:56 | `india` is not its own neighbour, lists no neighbour twice, and is listed back by each of its neighbours |
| Constants.SiamLinks | js/constants.js:57 | `siam` is not its own neighbour, lists no neighbour twice, and is listed back by each of its neighbours |
| Constants.IndonesiaLinks | js/constants.js:60 | `indonesia` is not its own neighbour, lists no neighbour twice, and is listed back by each of its neighbours |
| Constants.NewGuineaLinks | js/constants.js:61 | `new-guinea` is not its own neighbour, lists no neighbour twice, and is listed back by each of its neighbours |
| Constants.WesternAustraliaLinks | js/constants.js:62 | `western-australia` is not its own neighbour, lists no neighbour twice, and is listed back by each of its neighbours |
| Constants.EasternAustraliaLinks | js/constants.js:63 | `eastern-australia` is not its own neighbour, lists no neighbour twice, and is listed back by each of its neighbours |
| Constants.LinksOf | js/constants.js:10-64 | for one territory: no self-link, no repeated neighbour, and each neighbour lists it back |
| Sorting.Insert | js/cards.js:46 | insertion adds exactly the element |
| Sorting.InsertAscending | js/cards.js:46 | insertion keeps an ascending sequence ascending |
| Sorting.InsertAbove | js/cards.js:46 | a lower bound of the element and the sequence bounds the insertion |
| Sorting.SortAsc | js/cards.js:46 | `sort((a, b) => a - b)` gives an ascending permutation |
| Sorting.AscendingUnique | js/cards.js:46 | two ascending sequences with the same elements are equal, so the sorted order is unique |
| Sorting.Head | js/cards.js:46 | a sequence's multiset is its head plus its tail's |
| Sorting.Cancel | js/cards.js:46 | a common element cancels from a multiset equation |
| Sorting.SameHead | js/cards.js:46 | two ascending arrangements of the same values start with the same element |
| Sorting.AscendingTail | js/cards.js:46 | the tail of an ascending sequence is ascending |
| Sorting.RemoveAt | js/cards.js:46 | removing one position removes one copy of its element |
| Sorting.Reverse | js/game.js:131-132 | the reverse has the elements in the opposite order |
| Sorting.ReversePermutes | js/game.js:131-132 | reversing is a permutation |
| Sorting.SortDesc | js/game.js:131-132 | `sort((a, b) => b - a)` gives a descending permutation |
| JsState.AsList | js/state.js:92-97 | `[].concat(cards)`: a single card becomes a one-card list, a list stays as it is |
| JsState.NextIndex | js/state.js:44-49 | the next turn index always names a seat at the table |
| JsState.Rotate | js/state.js:44-49 | repeated `nextPlayer` calls stay within the table |
| JsState.RotateIsOffset | js/state.js:44-49 | `k` calls of `nextPlayer` move the turn `k` seats on, modulo the number of players |
| JsState.ModStep | js/state.js:46 | reducing before or after the increment gives the same seat |
| JsState.ModUnique | js/state.js:46 | the seat is determined by any quotient-remainder split |
| JsState.RotationVisitsAll | js/state.js:44-49 | every player gets a turn within one round, and a full round returns to the starting player |
| JsState.FindPlayer | js/state.js:28 | `find` returns the first player with the id, and finds none exactly when no player has it |
| JsState.Draw | js/state.js:84-90 | `pop` finds nothing exactly on an empty deck, and otherwise removes and returns the top card |
| JsState.DrawConserves | js/state.js:84-90 | drawing neither loses nor makes cards |
| JsState.DrawThenDiscard | js/state.js:84-97 | drawing a card and discarding it keeps the deck and pile together unchanged as a multiset |
| JsState.GameState.constructor | js/state.js:4-24 | the new state is the initial state |
| JsState.GameState.InitGameState | js/state.js:4-24 | resetting gives the initial state: no players, no territories, setup phase, first seat, empty deck and pile |
| JsState.GameState.PlayerById | js/state.js:28 | the player returned has the id, and none is returned exactly when no player has it |
| JsState.GameState.SetPlayers | js/state.js:31-33 | only the players change |
| JsState.GameState.SetTerritories | js/state.js:35-37 | only the territories (and their key order) change |
| JsState.GameState.SetGamePhase | js/state.js:39-42 | a phase change also drops the selection, and nothing else changes |
| JsState.GameState.NextPlayer | js/state.js:44-49 | the turn passes to the next seat, which exists, and the selection, the fortify record and the modified set are cleared |
| JsState.GameState.SetSelectedTerritory | js/state.js:51-53 | only the selection changes |
| JsState.GameState.SetFortifySource | js/state.js:55-57 | only the fortify source changes |
| JsState.GameState.SetFortifyTarget | js/state.js:59-61 | only the fortify target changes |
| JsState.GameState.SetFortified | js/state.js:63-65 | only the has-fortified flag changes, to true |
| JsState.GameState.ClearFortify | js/state.js:67-69 | only the fortify record changes, to the cleared record |
| JsState.GameState.SetAttackContext | js/state.js:71-73 | only the attack context changes |
| JsState.GameState.SetBlitzing | js/state.js:75-77 | only the blitz flag changes |
| JsState.GameState.SetDeck | js/state.js:79-82 | a new deck, and the discard pile starts empty |
| JsState.GameState.DrawCard | js/state.js:84-90 | drawing from an empty deck returns nothing and changes nothing; otherwise the top card comes off, and only the deck changes |
| JsState.GameState.AddToDiscardPile | js/state.js:92-97 | the cards go on top of the pile in order, and only the pile changes |
| JsGame.OwnedIn | js/game.js:190 | the filter keeps exactly the listed keys owned by the player, in key order |
| JsGame.OwnedInAll | js/game.js:190 | when every listed key is the player's, the filter keeps them all |
| JsGame.UpdateTotals | js/game.js:89-90 | changing one territory's record changes the army total by exactly the difference, and a player's total only through that territory |
| JsGame.Transfer | js/game.js:168-169 | definition by its body: armies leave the source and reach the target; `TransferConserves` states what it keeps |
| JsGame.TransferConserves | js/game.js:166-174 | moving armies changes no owner and no key, keeps the army total, and keeps every player's armies when both ends share an owner |
| JsGame.CalculateReinforcements | js/game.js:189-205 | the loop computes the reinforcement rule: nothing for a player with no territory, otherwise the larger of 3 and a third of the territories, plus the bonus of every continent held whole |
| JsGame.BonusesBounded | js/game.js:195-203 | the continent bonuses are between zero and the sum of all bonuses |
| JsGame.Reinforcements | js/game.js:189-205 | definition by its body: none without territory, otherwise max(3, n/3) plus whole-continent bonuses; `ReinforcementBounds` and `WholeMapReinforcements` state its bounds |
| JsGame.ReinforcementBounds | js/game.js:189-205 | a player owning nothing gets nothing; anyone else gets at least three and at least a third of their territories, and at most 24 on top of that |
| JsGame.BonusTotalAll | js/constants.js:66-68 | the six continents' bonuses add up to 24 |
| JsGame.BonusesMonotone | js/game.js:195-203 | gaining territories never lowers the continent bonus |
| JsGame.WholeMapReinforcements | js/game.js:189-205 | holding the whole classic map is worth 14 plus every bonus, 38 armies |
| JsGame.AllControlled | js/game.js:195-203 | a player holding everything collects every continent bonus |
| JsGame.ClosedHoldsWalk | js/game.js:207-220 | a set closed under steps through the player's territories that holds a walk's start holds its end |
| JsGame.ExtendWalk | js/game.js:212-217 | a walk extended by one step through an owned neighbour is a walk to that neighbour |
| JsGame.IsPathBetween | js/game.js:207-220 | the search answers true exactly when the end is reachable from the start through the player's territories |
| JsGame.InAllIdsSubset | js/game.js:207-220 | the visited set only holds map territories, which bounds the search |
| JsGame.Expand | js/game.js:212-217 | queueing the owned, unvisited neighbours keeps every visited territory reachable and every unexpanded one queued |
| JsGame.ClosedAfterExpand | js/game.js:212-217 | after expanding a node, every step out of the visited set leads into the queue |
| JsGame.RollDice | js/game.js:222-224 | `count` dice, each between 1 and 6 (none for a count below one) |
| JsGame.CompareRolls | js/game.js:136-139 | each compared pair costs exactly one army; the defender loses one per attacker die that beats its pair |
| JsGame.TiesToDefender | js/game.js:137 | ties go to the defender: with no higher attacker die the defender loses nothing, with all higher the attacker loses nothing |
| JsGame.ActivePlayers | js/game.js:227-229 | at most one active player per player |
| JsGame.ActiveCount | js/game.js:227-229 | the active players are counted by their seat positions |
| JsGame.CheckForWinner | js/game.js:226-236 | definition by its body: exactly one player holds territory; `WinnerIsSoleHolder` restates it as one sole holder |
| JsGame.WinnerIsSoleHolder | js/game.js:226-236 | there is a winner exactly when one player, and only that one, holds territory |
| JsGame.Fight | js/game.js:130-157 | definition by its body: the records after the sorted rolls are compared; `FightFacts` states losses, conquest and the army split |
| JsGame.FightFacts | js/game.js:126-164 | losses are non-negative and add up to the pairs compared; the target falls exactly when emptied and then passes to the attacker, with the surviving armies split and none lost |
| JsGame.PerformAttack | js/game.js:126-164 | the two records of the attack context become the outcome of the fight on the sorted dice drawn, and nothing but the records, the stream and the winner flag changes |
| JsGame.ResolveAttack | js/game.js:136-158 | the records after the exchange and the conquest are those of the fight |
| JsGame.DistanceStep | js/state.js:44-49 | passing the turn from any other seat brings a given seat one place nearer |
| JsGame.StartTurn | js/game.js:46-68 | stops on a win; otherwise passes over every seat holding no territory to the next one that does, stores its reinforcements, and either hands over to the AI or opens the reinforce phase |
| JsGame.PassOverEliminated | js/game.js:47-57 | the turn lands on a player holding territory unless the game is won, passing over only players who hold none |
| JsGame.GrantReinforcements | js/game.js:58-67 | the current player's reinforcements are stored; an AI player's turn is due, a human enters the reinforce phase |
| JsGame.AdvanceToNextPlayer | js/game.js:75-78 | the turn moves to the next seat and on to the first one holding territory, with selection and fortify cleared |
| JsGame.EndTurn | js/game.js:184-186 | the turn passes to the next player holding territory, after skipping exactly the players without; the fortify record, selection and modified set are cleared; a winner leaves the players and phase as they were; otherwise the new player alone gets the reinforcement rule's pool, and the phase is reinforce unless an AI turn is due; every other field is kept |
| JsGame.EndAttackPhase | js/game.js:180-182 | the phase becomes fortify, the selection is dropped, nothing else changes |
| JsGame.ConfirmFortify | js/game.js:166-174 | the territory records become the transfer of `amount` from source to target; deck, discard pile, attack context, speed, blitz flag and revealed set are kept; the fortify record and selection are cleared; the turn then passes on exactly as in `EndTurn` |
| JsGame.MoveArmies | js/game.js:167-170 | only the two territories' armies change, and no player loses their last territory |
| JsGame.OnTerritoryClick | js/game.js:81-124 | the store becomes what the current phase's handler makes of the click (`Clicked`): nothing on an AI turn or outside the three phases, otherwise `ReinforceClicked`, `AttackClicked` or `FortifyClicked`; the map and players change only in the reinforce phase |
| JsGame.ReinforceClick | js/game.js:88-95 | the store becomes `ReinforceClicked`: a click on one's own territory moves one army from the pool onto it and an emptied pool opens the attack phase; any other click changes nothing; map armies plus pool are conserved |
| JsGame.PlaceFromPool | js/game.js:89-91 | the territory gains one army and the pool loses one, so the map total rises by one |
| JsGame.AttackClick | js/game.js:96-107 | the store becomes `AttackClicked`: an enemy neighbour of the selection opens the attack on that pair, any other click reselects or clears; a selection is always one's own territory that can spare an army |
| JsGame.FortifyClick | js/game.js:108-121 | the store becomes `FortifyClicked`: nothing once fortified; a target is another own territory joined to the source through the player's territories; any other click re-picks a source that can spare an army, or clears it |
| JsGame.StartingArmies | js/game.js:10-11 | a starting army count exists exactly for two to five players, and is 50 minus 5 per player |
| JsGame.CreatePlayers | js/game.js:13-19 | the human in seat 1 and `numAI` AI players after, ids following seats |
| JsGame.DealTerritories | js/game.js:25-29 | exactly the dealt territories, the `i`-th to the seat `i mod n`, each with one army |
| JsGame.OwnedInSameOwners | js/game.js:32 | the filter depends only on the keys and their owners |
| JsGame.OneArmyEach | js/game.js:33 | with one army everywhere, a player's armies are their territory count |
| JsGame.NeighbouringSeats | js/game.js:25-29 | two consecutive deal positions never go to the same seat at a table of two or more |
| JsGame.DealShare | js/game.js:25-29 | among the first `l` dealt positions a seat holds at most every other one |
| JsGame.DealBounds | js/game.js:25-29 | on the 42-territory map each seat of two or more gets at most 21, and the first seats at least one each |
| JsGame.TopUp | js/game.js:32-38 | a player gains exactly `startingArmies` minus their territory count, on their own territories, and no other player changes |
| JsGame.DistributeArmies | js/game.js:31-39 | every player ends with exactly the starting armies on the map |
| JsGame.TopUpSeat | js/game.js:31-39 | one pass of the distribution tops one seat up to the starting armies and leaves the others |
| JsGame.DealAndDistribute | js/game.js:24-39 | the dealt map: every territory in the deal, owners round the table, at least one army each, and each player at the starting armies |
| JsGame.SeatedOwners | js/game.js:25-29 | dealt round a seated table, the `i`-th territory's owner id is `i mod n + 1` |
| JsGame.DealSizes | js/game.js:25-29 | each seat of a table of two to five gets between 1 and 21 territories |
| JsGame.SetupGame | js/game.js:7-44 | the human and the AI players seated in order, the map dealt round and topped up to the starting armies, and the first turn started |
| JsGame.Seat0Holds | js/game.js:25-29 | the first dealt territory goes to the human, so the human holds territory |
| JsAi.Borders | js/ai.js:14-16 | exactly the AI's territories that touch another player's territory |
| JsAi.ReinforcePick | js/ai.js:18-20 | the pick is the AI's own territory, and a border territory whenever there is one |
| JsAi.ExecuteAIReinforce | js/ai.js:6-26 | the store and draw become `Placed`: nothing for a player without territory; otherwise the whole pool lands on `ReinforcePick`'s territory, drawing only when it has a border territory; map armies plus pool are conserved |
| JsAi.Placed | js/ai.js:6-26 | the placement changes only territories and players, keeps the keys, owners and player ids, and never goes back in the draws |
| JsAi.PlacePool | js/ai.js:23-24 | the store becomes `Pooled`: the pool on one territory and emptied; every garrison and the map armies plus the pool are kept |
| JsAi.PooledKeeps | js/ai.js:23-24 | the pooled store keeps the keys, completeness, garrisons, and map armies plus pool |
| JsAi.TargetsFrom | js/ai.js:33-37 | exactly the pairs from the source to a neighbour held by another player |
| JsAi.AttackPairsExact | js/ai.js:31-39 | the candidates are exactly the legal attacks from the listed keys |
| JsAi.Outnumbering | js/ai.js:41 | exactly the candidates whose source outnumbers the target |
| JsAi.Strongest | js/ai.js:49 | definition by its body: the index of the head after the stable descending sort; `StrongestIsFirstMax` states it |
| JsAi.StrongestIsFirstMax | js/ai.js:49 | the strongest position holds a pair with the most source armies, and no earlier pair has as many |
| JsAi.ChosenAttack | js/ai.js:41-49 | definition by its body: the first strongest-source attack that outnumbers its target; `ChosenAttackIsBest` states it |
| JsAi.ChosenAttackIsBest | js/ai.js:41-49 | the chosen attack is legal, outnumbers its target and starts from the strongest such source; there is none exactly when no legal attack outnumbers its target |
| JsAi.CollectAttacks | js/ai.js:30-39 | the loops build exactly the candidate list |
| JsAi.AttackPairsStep | js/ai.js:31-39 | one more key adds exactly its targets, when it can spare an army |
| JsAi.CollectTargets | js/ai.js:33-37 | the inner loop collects exactly the source's enemy neighbours |
| JsAi.AiFightFacts | js/ai.js:68-90 | with the AI's dice counts, losses add up to the dice compared, both records keep an army, the attacker keeps its own, and a conquest hands the target over |
| JsAi.TotalNonNegative | js/ai.js:78-89 | garrisoned records hold at least one army each in total |
| JsAi.AiRolls | js/ai.js:68-71 | `min(3, armies - 1)` attacker dice and `min(2, armies)` defender dice |
| JsAi.Battle | js/ai.js:57-96 | every record keeps an army, the attacker loses no territory, and either an enemy territory falls or the armies on the map fall |
| JsAi.AiBattle | js/ai.js:68-90 | definition by its body: one battle with the sorted rolls and the conquest move; `BattleFacts` states what it keeps and changes |
| JsAi.BattleFacts | js/ai.js:57-96 | the same facts about the battle function, for use in other proofs |
| JsAi.Resolve | js/ai.js:78-90 | the records after the losses and the conquest move are those of the fight |
| JsAi.Rounds | js/ai.js:28-99 | definition by its body: the records and next draw at the end of the attack loop; `AttackRounds` and `ExecuteAIAttacks` are proved to compute it |
| JsAi.Fights | js/ai.js:57-96 | definition by its body: the battle of one pass, then the rest of the loop |
| JsAi.AfterBattle | js/ai.js:68-90 | the battle's records are sound, keep the attacker's holdings, and win a territory or cost armies |
| JsAi.RoundsStep | js/ai.js:43-96 | a pass that fights leaves the loop's final records and draw unchanged |
| JsAi.RoundsStops | js/ai.js:43-47 | with no good attack the loop ends without a draw; a draw above 0.8 ends it after that draw |
| JsAi.ChosenAttackLegal | js/ai.js:41-49 | the chosen attack starts from an own territory that can spare an army and targets an enemy |
| JsAi.AttackStep | js/ai.js:28-99 | one pass: the phase ends exactly when there is no good attack or the draw exceeds 0.8, at the end `Rounds` gives; otherwise the chosen battle is fought, progress is made, and `Rounds` from the new records is unchanged |
| JsAi.ChooseAttack | js/ai.js:30-49 | a chosen attack is a legal attack from a listed key |
| JsAi.ApplyBattle | js/ai.js:78-90 | writing a battle back keeps the keys and garrisons; a conquest removes an enemy territory, and otherwise the army total falls |
| JsAi.AttackRounds | js/ai.js:28-99 | the loop computes exactly `Rounds`; it ends with no good attack left or a draw above 0.8, keeping every AI territory and a garrison everywhere |
| JsAi.Round | js/ai.js:28-99 | one loop turn: when done, the records and draw are those of `Rounds`; otherwise the loop state carries on and the measure falls |
| JsAi.ExecuteAIAttacks | js/ai.js:28-99 | the territory records and draw become those `Rounds` gives from the AI's records; nothing else changes and the AI keeps what it held |
| JsAi.DestinationsFrom | js/ai.js:110-117 | exactly the other own territories that border an enemy |
| JsAi.FortifyMovesExact | js/ai.js:106-120 | the candidates are exactly the moves from a safe territory that can spare an army to another own territory on the border |
| JsAi.ChosenFortify | js/ai.js:104-123 | definition by its body: the head of the stably sorted safe-to-border moves; `ChosenFortifyIsBest` states it |
| JsAi.ChosenFortifyIsBest | js/ai.js:122-123 | there is no move exactly when no legal move exists, and the chosen move carries at least as many armies as any legal move |
| JsAi.CollectFortifyMoves | js/ai.js:104-120 | the nested loops build exactly the candidate list |
| JsAi.CollectDestinations | js/ai.js:110-117 | the inner loop collects exactly the border destinations |
| JsAi.ChooseFortify | js/ai.js:122-123 | the loop's pick is the best move |
| JsAi.ExecuteAIFortify | js/ai.js:101-131 | the best move, if any, is made and only the records change; no owner changes and every garrison stays |
| JsAi.Fortified | js/ai.js:122-126 | definition by its body: the chosen move applied, or no change; `FortifyFacts` states what it keeps |
| JsAi.FortifyFacts | js/ai.js:122-126 | the fortification keeps keys, owners, garrisons, the army total and every player's armies |
| JsAi.MoveKeepsAll | js/ai.js:124-125 | moving all but one army between two territories of one owner keeps keys, owners, garrisons, the army total and every player's armies |
| JsAi.AiReinforcePhase | js/ai.js:135-138 | the phase becomes reinforce with no selection, then the store and draw are `Placed` from there |
| JsAi.AiAttackPhase | js/ai.js:141-142 | the phase becomes attack with no selection, then the records and draw are `Rounds` from the AI's records |
| JsAi.AiFortifyPhase | js/ai.js:145-146 | the phase becomes fortify with no selection, then the records are `Fortified` from the AI's records |
| JsAi.AiPhases | js/ai.js:133-147 | the three phases composed: `Placed`, then `Rounds` from the placed records, then `Fortified`, with the phase left at fortify and the same current player |
| JsAi.ExecuteAITurn | js/ai.js:133-155 | the store after `Placed`, `Rounds` and `Fortified` in turn, the AI keeping what it held; then the turn passes as in `EndTurn`: a winner keeps the players, otherwise the next player holding territory gets its pool |
| MainTs.Put | src/main.ts:347-351 | the entry with the id gets the owner and troops, and every other entry is as it was |
| MainTs.Add | src/main.ts:748-772 | `updateTroopCount` on an id: the troops there change by `delta`, nothing else changes |
| MainTs.IdsHas | src/main.ts:366 | an id is on the board exactly when some entry carries it |
| MainTs.IdsAgree | src/main.ts:366 | boards with the same id at every position hold the same ids |
| MainTs.SameMapKeeps | src/main.ts:366 | boards with the same map have the same ids, and one is fit for lookups when the other is |
| MainTs.LookupAt | src/main.ts:366 | `state.territories[id]` reads the one entry that carries the id |
| MainTs.IdsDistinct | src/main.ts:366 | on a valid board no two entries carry the same id |
| MainTs.TotalShift | src/main.ts:748-772 | a change of `delta` troops at one entry changes the total by `delta` |
| MainTs.TotalSame | src/main.ts:748-772 | the same troops everywhere give the same total |
| MainTs.SameMapAt | src/main.ts:366 | boards with the same map find an id at the same position |
| MainTs.PutRead | src/main.ts:347-351 | changing one entry keeps the board valid and its ids, and changes what is read at that id and nothing else |
| MainTs.PutTotal | src/main.ts:347-351 | changing one entry moves the total by the change in its troops |
| MainTs.AddRead | src/main.ts:748-772 | adding troops keeps the board valid, its ids and owners, and changes only the troops read at that id |
| MainTs.AddTotal | src/main.ts:748-772 | adding `delta` at one entry adds `delta` to the total |
| MainTs.AddMissing | src/main.ts:748-772 | adding troops to an id the board does not hold changes nothing |
| MainTs.PutOk | src/main.ts:347-351 | giving an entry to a seated player keeps the board fit for the game |
| MainTs.AddOk | src/main.ts:748-772 | adding troops keeps the board fit for the game |
| MainTs.Roster | src/main.ts:94-102 | the human with id 0 and then `cpuCount` CPUs, ids equal to seats |
| MainTs.Next | src/main.ts:566 | the next seat is a seat |
| MainTs.Walk | src/main.ts:565-568 | walking from a seat stays on a seat |
| MainTs.Advance | src/main.ts:565-568 | the do-while ends on a seat |
| MainTs.WalkOffset | src/main.ts:565-568 | walking `c` seats lands `c` seats on, wrapping once |
| MainTs.AdvanceFirstOwner | src/main.ts:565-568 | the turn goes to the first seat after the current one, in rotation order, whose player owns a territory |
| MainTs.AdvanceFrom | src/main.ts:565-568 | from an intermediate attempt the loop stops at the first owning seat ahead |
| MainTs.AdvanceReachesOwner | src/main.ts:565-568 | while some player owns a territory, the turn stops at a player who owns one |
| MainTs.OwnerAhead | src/main.ts:565-568 | an owning seat ahead guarantees the loop stops on an owning seat |
| MainTs.AdvanceFullCircle | src/main.ts:565-568 | with nothing owned, all attempts are made and the turn returns to the same seat |
| MainTs.FullFrom | src/main.ts:565-568 | with nothing owned, the loop from any intermediate attempt runs to the full round |
| MainTs.Active | src/main.ts:692 | definition by its body: the players owning a territory; `ActiveMembers` states it |
| MainTs.ActiveMembers | src/main.ts:692 | the active players are exactly those owning a territory, each once |
| MainTs.SoleSurvivor | src/main.ts:692-694 | with `w` owning a territory, exactly one player is active exactly when no other player owns one |
| MainTs.OnlyActive | src/main.ts:692-696 | when `w` alone owns territory, `w` alone is active |
| MainTs.NoneActive | src/main.ts:692 | no player is active when none owns territory |
| MainTs.IndexOf | src/main.ts:366 | for an id on the board, the position found holds the entry with that id |
| MainTs.Link | src/main.ts:336-341 | linking one manual pair changes no id, owner or troop count |
| MainTs.LinkNeighbours | src/main.ts:336-341 | linking adds exactly the two directions of the pair, with no repeated neighbour |
| MainTs.Connected | src/main.ts:335-342 | the manual connections keep the ids, owners and troops |
| MainTs.SameIds | src/main.ts:335-342 | boards with the same ids at every position hold the same ids |
| MainTs.ConnectedOnlyFrom | src/main.ts:335-342 | a neighbour after the connections was one before, or is the other end of a connection whose two ends exist |
| MainTs.ConnectedKeeps | src/main.ts:335-342 | connections only add neighbours |
| MainTs.ConnectedBothWays | src/main.ts:335-342 | every connection whose two territories exist links them in both directions |
| MainTs.ConnectedOk | src/main.ts:335-342 | the connections keep a board fit for the game |
| MainTs.Deal | src/main.ts:347-351 | dealing keeps the ids |
| MainTs.DealFacts | src/main.ts:347-351 | each territory of the order goes to the player its place names, `i mod n`, with one troop; the others are as they were |
| MainTs.Sprinkle | src/main.ts:352-355 | the extra troops keep the ids |
| MainTs.SprinkleFacts | src/main.ts:352-355 | extra troops never change an owner or lower a count, and each adds one troop to the board |
| MainTs.TotalOnes | src/main.ts:350 | a board with one troop everywhere holds as many troops as entries |
| MainTs.DealRound | src/main.ts:347-351 | the `forEach` leaves the board as the deal |
| MainTs.ExtraTroops | src/main.ts:352-355 | the `for` loop adds twice as many single troops as there are ids, one draw each |
| MainTs.DealOk | src/main.ts:347-351 | dealing keeps the board fit for the game |
| MainTs.SprinkleOk | src/main.ts:352-355 | the extra troops keep the board fit for the game |
| MainTs.AssignFacts | src/main.ts:344-357 | over a shuffled order of every territory, each belongs to the player its place names, holds at least one troop, and the board holds three troops per territory |
| MainTs.SettleOk | src/main.ts:344-357 | the board stays fit for the game when only owners and troops change, to seated players |
| MainTs.NextSeat | src/main.ts:564-568 | the do-while ends on a seat whose player owns territory when anyone does, and otherwise on the same seat |
| MainTs.Fight | src/main.ts:494-532 | only the two territories change: on a victory the defender passes to the attacker's owner with the move amount taken from the attacker, on a defeat the attacker loses its losses; the total falls by the defender's troops or the attacker's loss |
| MainTs.Shift | src/main.ts:443-444 | the amount leaves one territory and reaches the other; the total is kept |
| MainTs.Deployed | src/main.ts:622-628 | deploying keeps the ids |
| MainTs.DeployedFacts | src/main.ts:622-628 | deploying positive amounts on existing territories keeps every owner, never lowers a count, and adds the amounts to the board |
| MainTs.ApplyDeployments | src/main.ts:622-628 | the loop leaves the board as the deployments applied, and spends exactly the amounts applied |
| MainTs.Battled | src/main.ts:461-536 | definition by its body: the battle relation; `BattleStep` and `Game.ResolveBattle` establish it |
| MainTs.BattleStep | src/main.ts:461-536 | a battle keeps the board fit for the game and never loses the attacker's territory |
| MainTs.DeployStep | src/main.ts:612-628 | the deployment step keeps the board fit, and spends what it places |
| MainTs.AttackEnds | src/core/ai.ts:299-441 | an attack the AI picks joins two different existing territories |
| MainTs.ShiftById | src/main.ts:443-444 | a shift between positions is a shift between their ids |
| MainTs.FortifyEnds | src/main.ts:674-685 | a fortification the AI settles on joins two existing territories |
| MainTs.ApplyFortification | src/main.ts:668-685 | the fortification keeps the board fit for the game, every owner and the total |
| MainTs.FortifyLeavesOne | src/main.ts:674-685 | a fortification between two different territories leaves exactly one troop behind |
| MainTs.ContinentList | src/main.ts:579 | the continent records in key order, one per key |
| MainTs.OwnedIffCount | src/main.ts:568 | a player has a territory among their own exactly when their count is positive |
| MainTs.BoardReadable | src/main.ts:612-619 | a board fit for the game can be read by every AI query, for every player |
| MainTs.Game.constructor | src/main.ts:90-125 | the roster and the initial state: seat 0, deploy phase, five reinforcements, nothing selected, game running |
| MainTs.Game.AddManualConnections | src/main.ts:335-342 | the board becomes the connected board; only neighbour sets change |
| MainTs.Game.AssignTerritories | src/main.ts:344-357 | a deal round then twice as many single troops; every owner a seated player and three troops per territory |
| MainTs.Game.DeployClick | src/main.ts:368-394 | on one's own territory, while reinforcements remain, one (all on shift) is placed there; an emptied pool opens the attack phase; troops on the board plus the pool are conserved |
| MainTs.Game.AttackClick | src/main.ts:395-417 | clicking the selection clears it; one's own territory is selected when it has more than one troop; an enemy neighbour of the selection is attacked, the board becoming `Attacked` on the next two draws and the game ending exactly when one player is left |
| MainTs.Game.FortifyClick | src/main.ts:418-458 | the source is one's own territory with more than one troop; a click on an own neighbour moves one troop (all but one on shift); a source left with one troop makes the end of turn due |
| MainTs.Game.MoveTroops | src/main.ts:443-444 | the amount leaves one territory and reaches the other; owners, the troop total and every other field are kept |
| MainTs.Game.HandleTerritoryClick | src/main.ts:361-459 | nothing happens once the game is over or during a CPU turn; otherwise, under the phase the click found, the full postcondition of `DeployClick`, `AttackClick` or `FortifyClick` |
| MainTs.Bonus | src/main.ts:486-490 | definition by its body: 15 for a HARD CPU, 0 otherwise; `Attacked` and `Game.ResolveBattle` use it |
| MainTs.Fought | src/main.ts:494-523 | a victory hands only the defender to the attacker with the troops moved; a defeat costs the attacker; the shape is kept |
| MainTs.Attacked | src/main.ts:484-500 | the board after `resolveBattle`'s outcome keeps its shape, and every territory keeps its owner or passes to the attacker |
| MainTs.Game.ResolveBattle | src/main.ts:461-536 | the board becomes the outcome of the battle on two draws, and the game ends exactly when one player is left |
| MainTs.Game.BtnAction | src/main.ts:538-554 | deploy to attack once every reinforcement is placed, attack to fortify, fortify to the end of the turn |
| MainTs.Game.EndTurn | src/main.ts:558-601 | unless the game is over or the human still has troops to deploy, the turn passes to the next seat whose player owns territory, who gets the reinforcement rule's troops in the deploy phase |
| MainTs.MaxAttacks | src/main.ts:638 | definition by its body: 10 for HARD, 5 for MEDIUM, 3 otherwise; `Game.CpuAttacks` and `Game.CpuTurn` cap the attack passes by it |
| MainTs.Game.CpuTurn | src/main.ts:603-688 | nothing for a human seat or a finished game; for a CPU seat: the board after `getDeployments`' record (`deployed`), then attack passes each as `AttackedBy` states, at most `maxAttacks`, from `deployed` to `attacked`, losing the CPU no territory; then the board becomes `attacked` with `getFortification`'s move; the turn then passes, with the next seat's reinforcements, unless the game ended |
| MainTs.Game.CpuDeploy | src/main.ts:611-628 | the record `getDeployments` returns is applied, spending the reinforcements |
| MainTs.Game.CpuBattles | src/main.ts:636-685 | the attack passes from the board to `attacked` as `CpuAttacks` states, then the fortification `getFortification` settles on applied to `attacked` |
| MainTs.Game.CpuAttackPhase | src/main.ts:636-661 | the phase becomes attack and the board becomes the last of a run of at most `maxAttacks` passes from the old board, each as `AttackedBy` states; the player loses no territory |
| MainTs.Game.CpuAttacks | src/main.ts:636-661 | the passes run as `AttackLoop` records: each the battle `getNextAttack` picks from its draw, resolved as `Attacked`; the loop stops only at `maxAttacks`, at the end of the game, or at a pass with no attack; the player loses no territory |
| MainTs.Game.AttackStep | src/main.ts:640-660 | one pass extends the loop record by the board `AttackOnce` leaves, or, when no attack is found, leaves the record and the board as they were |
| MainTs.Game.AttackOnce | src/main.ts:640-660 | the pass is the one `AttackedBy` defines: the attack `getNextAttack` picks, resolved with `resolveBattle` on the next two draws, or nothing when it picks none; the player loses no territory |
| MainTs.Game.CpuFortify | src/main.ts:663-685 | the move `getFortification` settles on, if any, is applied and keeps the board fit |
| MainTs.Game.CheckWinCondition | src/main.ts:690-710 | the game ends once exactly one player owns territory, and never restarts |
| MainJs.Battle | src/main.js:599-626 | the attacker wins exactly when its roll beats the defender's; a victory moves at least one troop and about half of what stays behind, and leaves the attacker at least one troop |
| MainJs.BattleAgrees | src/main.js:599-626 | the battle agrees with `calculateBattleOutcome` without a bonus: the same rolls decide and a victory moves the same troops in |
| MainJs.Clash | src/main.js:593-631 | a battle keeps the map |
| MainJs.ClashOk | src/main.js:593-631 | a battle keeps the board fit for the game, with its map and its ids |
| MainJs.ClashFacts | src/main.js:602-626 | only the attacker and the defender change: the attacker keeps its owner and, from two troops up, a troop; the defender either passes to the attacker's owner with the troops moved in or keeps owner and troops |
| MainJs.JsReinforcements | src/main.js:659-672 | definition by its body: max(3, n/3) plus the bonuses, even for a player without territory; `ReinforcementsAgree` and `ClassicReinforcements` relate it to the other rules |
| MainJs.CalculateJsReinforcements | src/main.js:659-672 | the loop computes the reinforcement rule: the larger of 3 and a third of the territories, plus the bonus of every continent all of whose listed territories the player owns |
| MainJs.BonusesAgree | src/main.js:664-670 | where every continent lists a territory, the bonuses are those of `calculateReinforcements` in src/core/logic.ts |
| MainJs.ReinforcementsAgree | src/main.js:659-672 | the two generations of the rule agree for a player who owns territory; a player who owns nothing still receives three here |
| MainJs.BonusesAtLeast | src/main.js:659-672 | with no negative bonus every player gets at least three troops, and at least the bonus of each continent they hold |
| MainJs.NothingHeld | src/main.js:665 | a player with no territory holds no continent that lists one |
| MainJs.EmptyContinentPays | src/main.js:665 | `every` on an empty list holds, so a continent listing nothing pays every player |
| MainJs.ClassicReinforcements | src/main.js:55-62 | on the classic continents the two rules agree for every player who owns territory |
| MainJs.Survivors | src/main.js:714 | definition by its body: the seats that own a territory; `SurvivorsMembers` states it |
| MainJs.SurvivorsMembers | src/main.js:714 | the survivors are exactly the seats that own a territory, each once |
| MainJs.LoneSurvivor | src/main.js:714-716 | on a board owned by seats, exactly one seat survives exactly when every territory has the same owner |
| MainJs.OnlySurvivor | src/main.js:714-716 | when `w` alone owns territory, `w` alone survives |
| MainJs.NoSurvivor | src/main.js:714 | no seat survives when none owns territory |
| MainJs.IdsOf | src/main.js:680 | the ids of the listed territories, in order |
| MainJs.DeployAtRandom | src/main.js:684-688 | the loop places `max(0, r)` single troops at random places of the list and leaves `min(r, 0)` |
| MainJs.SprinkleOnly | src/main.js:684-688 | random troops never reach a territory outside the list |
| MainJs.DeployOnOwned | src/main.js:680-688 | the deployment places every troop on the player's territories: no owner changes, only the player's territories grow, and the board gains the troops placed |
| MainJs.StrongMembers | src/main.js:699 | exactly the player's territories holding more than two troops |
| MainJs.FoesMembers | src/main.js:702 | exactly the neighbours held by another player |
| MainJs.PickAttack | src/main.js:699-706 | definition by its body: a random strong territory, then a random enemy neighbour; `PickAttackLegal` and `PickAttackIdle` state it |
| MainJs.PickAttackLegal | src/main.js:699-706 | a picked attack goes from the player's territory holding more than two troops to an existing enemy neighbour, and takes two draws |
| MainJs.PickAttackIdle | src/main.js:699-707 | no draw is made exactly when the player has no strong territory; otherwise an idle tick draws the source only |
| MainJs.Tick | src/main.js:694-708 | one tick keeps the board fit for the game |
| MainJs.ClashRaided | src/main.js:699-706 | a battle the CPU picks is a raid: no other player gains, the CPU keeps its territories |
| MainJs.TickRaided | src/main.js:693-709 | a tick is a raid by the player, and reports the game over only when one seat is left |
| MainJs.RaidedTrans | src/main.js:693-709 | raids compose |
| MainJs.Raid | src/main.js:692-709 | definition by its body: the attack interval, tick by tick until the game ends; `RaidFacts` states it |
| MainJs.RaidFacts | src/main.js:693-709 | the attack interval is a raid by the player; once the game is over it changes nothing, and it ends the game only when a single seat owns territory |
| MainJs.TickStep | src/main.js:699-707 | the body of one tick computes the tick |
| MainJs.Raids | src/main.js:692-709 | the interval runs three ticks, stopping once the game is over |
| MainJs.NeighbourMapAt | src/main.js:281-298 | on a valid board the map has a key for every territory and holds its neighbours |
| MainJs.ScanKeys | src/main.js:281-298 | the scan has a key for every territory and no other, and links territories only |
| MainJs.Install | src/main.js:291-292 | writing the scan into the territories keeps the board fit, and its neighbour sets are then the scan |
| MainJs.Adjacency | src/main.js:281-298 | afterwards the neighbour sets are exactly the territories sharing a grid edge, in both directions |
| MainJs.DeployValid | src/main.js:684-688 | the deployment leaves a valid board |
| MainJs.Deployment | src/main.js:684-688 | the deployed board is as fit for the game as the board before |
| MainJs.AttackDraw | src/main.js:684-688 | the attacks start drawing after one draw per troop placed |
| MainJs.CpuPlay | src/main.js:678-710 | definition by its body: deployment then the attack interval; `CpuPlayOf` and `PlayedFacts` state it |
| MainJs.CpuPlayOf | src/main.js:678-710 | a CPU turn is the attack interval on the deployed board |
| MainJs.CpuRound | src/main.js:683-709 | the deployment and the attacks in a row compute the CPU turn |
| MainJs.PlayedFacts | src/main.js:678-710 | a CPU turn only helps the CPU: it keeps every territory it had and alone gains any, nobody else gains troops, and the game ends only with a single seat left |
| MainJs.DeployThenRaidAt | src/main.js:683-709 | the facts of a CPU turn for the deployed board |
| MainJs.RaidAfterDeploy | src/main.js:683-709 | the facts of a CPU turn for the attacks after any deployment onto the player's territories |
| MainJs.DeployThenRaid | src/main.js:683-709 | a deployment onto one's own territories followed by a raid is a raid |
| MainJs.Game.constructor | src/main.js:100-139 | one human and `cpuCount` CPU seats; seat 0, deploy phase, five reinforcements, nothing selected, game running |
| MainJs.Game.CalculateAdjacency | src/main.js:281-298 | every territory's neighbours become those the grid scan finds, sound and complete for the grid; ids, owners and troops are kept |
| MainJs.Game.AddManualConnections | src/main.js:300-307 | the pairs are linked in order, each only when both territories exist; only neighbour sets change |
| MainJs.Game.AssignTerritories | src/main.js:309-322 | the territory at place `i` goes to seat `i mod seats` with one troop, then twice as many single troops land at random, one draw each |
| MainJs.Game.DeployClick | src/main.js:491-512 | on one's own territory, while reinforcements remain, one is placed there; an emptied pool opens the attack phase; troops on the board plus the pool are conserved |
| MainJs.Game.AttackClick | src/main.js:513-535 | clicking the selection clears it; one's own territory is selected when it has more than one troop; an enemy neighbour of the selection is attacked, and the game ends exactly when one seat is left |
| MainJs.Game.FortifyClick | src/main.js:536-570 | the source is one's own territory with more than one troop; a click on an own neighbour moves one troop; a source left with one troop makes the end of turn due |
| MainJs.Game.HandleTerritoryClick | src/main.js:485-572 | nothing happens once the game is over or while a CPU seat plays; otherwise, under the phase the click found, the full postcondition of `DeployClick`, `AttackClick` or `FortifyClick` |
| MainJs.Game.BtnAction | src/main.js:574-591 | deploy to attack once every reinforcement is placed, attack to fortify, fortify to the end of the turn |
| MainJs.Game.ResolveBattle | src/main.js:593-631 | the board becomes the battle's outcome, the selection is cleared, and the game ends exactly when one seat is left |
| MainJs.Game.EndTurn | src/main.js:633-657 | unless the game is over or reinforcements are still to deploy, the turn passes to the next seat owning territory, which gets the reinforcement rule's troops in the deploy phase |
| MainJs.Game.CpuTurn | src/main.js:678-710 | a seat owning nothing ends its turn at once; otherwise the board and game state are those of the CPU turn, and the turn then ends unless the game is over |
| MainJs.Game.CpuPlays | src/main.js:683-709 | the board, game-over flag and draws are those of the CPU turn; the turn and phase are kept and the reinforcements spent |
| MainJs.Game.CheckWinCondition | src/main.js:712-728 | the game ends once exactly one seat owns territory, and never restarts |

## Left out

- DOM, rendering, modals, the ticker, hover, logs and CSS animation classes carry no rules and are not modelled. Only their effects on game state are kept: the attack modal sets the attack context, and closing it clears the selection.
- Timers (`setTimeout`, `setInterval`, the `wait` pauses of `cpuTurn`, the phase delays of `js/ai.js`) are modelled as immediate, sequential steps:
  - The switch to the attack phase after the last deploy click happens at once.
  - The delayed `endTurn` after a finished fortification is the result flag `endTurnDue`.
  - The CPU turn that `endTurn` schedules is the result flag `cpuDue` (in `js/game.js`, `aiTurnDue`).
  - The ticks of the `setInterval` attack loop of `src/main.js` run back to back.
- Interleaving of a human click or `btnAction` with a timer-driven CPU turn is not modelled.
- The probability distribution of `Math.random()` is not modelled. Only its values are inputs.
- The shuffle `sort(() => Math.random() - 0.5)` of `assignTerritories` is not modelled. Its result is the input `order`, and the draws it consumes are not counted in the stream.
- `setupMode` is not modelled. The `Game` constructors stand for the state right after `startGame`, where it is false.
- `createGridAndTerritories` and `initGame` are not modelled. The board they produce is a constructor argument.
- In `src/main.js` owners are `null` before `assignTerritories`. The model's owners are always seat numbers.
- The classic layout and continent tables of `src/main.js` (`CLASSIC_CONTINENT_DATA`) are parameters. The model does not prove that the layout contains every continent's ids; `MainJs.Game.constructor` requires it instead.
- `state.fortifying` is never set to true in either generation. The fortify click's deselect test therefore reads only the selection.
- `calculateAdjacency` of `src/main.ts` is not modelled. It merges `generateAdjacencyMap` (modelled in `Logic`) into the neighbour sets with `Set.add` (modelled by `Util.AddUnique`).
- Entrenchment, capitals, blitz and fog of war are left out. Only their constants and store fields exist in the source, with no rules that read them.
- `CARD_SUITS`, `CARD_RANKS` and `POKER_HANDS` are not defined in `js/constants.js`. Suits and ranks are therefore parameters, a hand's value is the kind of hand, and no bonus values are modelled.
- `Cards.RankValue` reads only plain digit strings and J/Q/K/A. Strings such as `" 7"`, `"0x10"` or `"1e1"`, which `isNaN`/`parseInt` treat specially, are not modelled, and neither is `""`, for which the source yields `NaN`; the model gives no value for all of them. `Cards.EvaluateHand` requires every rank to be one of the modelled forms.
- Grid coordinates, display names and colours in `js/constants.js` are not modelled. They only place and paint the map.
- A player's `armiesToDeploy` is `undefined` in `setupGame` until the first turn. The model starts it at 0.
- `JsState.GameState.NextPlayer` requires at least one player. With none, the source computes `NaN`.
- `JsGame.StartTurn` requires some player to hold territory. With none, the source's skip loop recurses forever.
- `JsGame.PerformAttack` requires the attack source and target to differ. The two records would alias otherwise, and the click handler never produces such a pair.
- `JsAi.ExecuteAIAttacks` writes the territory records back once, after the last battle, rather than after each battle. Nothing reads the store in between.
- The missing-record guard inside the AI battle timer (`js/ai.js` lines 61-66) is not modelled. It cannot fire, because the store holds a record for every territory.
- `Ai.GetDeployments` requires, for MEDIUM and HARD, that every neighbour of an owned territory exists. This is slightly stronger than the source needs: the source throws only when its continent check reaches a missing neighbour.
- The AI's fractional thresholds (`* 1.3`, `> 0.4`, `/ 1.5`, `bonus / 10`) are exact rationals (`real`), not floating point.
- `MainJs.Game.CpuPlays` does not state, in its ensures, that the selection is cleared when a battle was fought.
- Floating-point rounding of random draws is not modelled. A draw is a real number, and every `Math.floor` of a draw times an integer is taken over the exact product. Where the double-precision product rounds up to an integer, the source gets one more than the model. For example, with the draw 0.7 (whose double value lies just below 0.7), `src/main.js` line 599 and `src/core/logic.ts` line 46 compute an attack roll of 14 for two troops, while `MainJs.Battle` and `Logic.CalculateBattleOutcome`, through `Logic.AttackRoll`, give 13. With the draw 1/3, `js/game.js` line 223 rolls 3, while `Rand.Die` gives 2. `Rand.Index(0.7, 10)` is 6, while the source picks 7.
- Ai.GetNextAttack: requires `AttackReadable`, that every territory and neighbour it reads exists. The source throws a `TypeError` there instead (`src/core/ai.ts` lines 314-315, 334 and 355), and the model does not cover that error path.
- Ai.GetFortification: requires `FortifyReadable`, that every neighbour it reads exists. The source throws instead (`src/core/ai.ts` lines 467-468 and 510-512), and the model does not cover that error path.
- Logic.GenerateAdjacencyMap: requires `Grid.RowsReadable`, that the layout has the rows and columns it is told. The source reads `undefined` for a missing row and throws (`src/core/logic.ts` line 121), and the model does not cover that error path.
- MainJs.Game.CalculateAdjacency: requires `Grid.RowsReadable` for the same reason as `Logic.GenerateAdjacencyMap`.
- Grid.ScanAdjacency: states which neighbours each list holds, without repeats, but not the order in which the scan inserts them.
