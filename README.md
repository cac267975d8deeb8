# Crypto Empire economy engine in Dafny

This project models the economy engine of the Crypto Empire idle-mining game
(`src/GameContext.jsx` and the catalog tables of `gameData.js`) and proves its
rules. The player state is a single mutable record. A production tick runs ten
times a second, and the player's commands (mining clicks, equipment purchases,
manager hires, research, coin trades and prestige) each change that record. An
achievement pass then grants golden blocks.

Modules:

- `Catalog`: the five constant tables (equipment, managers, research, coins,
  achievements) with one constructor per catalog id, their lookups, and the
  facts the engine relies on.
- `Economy`: the pure arithmetic.
  - The equipment and research cost curves.
  - The prestige reward (an integer square root).
  - The randomised coin quote.
  - The weighted-average cost basis of a coin purchase.
  - The suffix choice of the number formatter.
- `Production`: the production rate as a specification. It is the sum of
  owned × baseCps, times the product of the multiplier managers' effects, times
  the product of 1 + effect × level over cpsBoost research, times the prestige
  factor. It also proves what does and does not change the rate.
- `Achievements`: the eight achievement predicates. It specifies the pass that
  appends newly met achievements in catalog order, and proves freshness,
  absence of duplicates, idempotence and order independence.
- `Session`: the class `GameState`, whose fields are the keys of the game state.
  It holds one method per command and the tick. The tick's loops are proved
  against the `Production` functions and the achievement loop against the
  `Achievements` functions. The `Valid` invariant is kept by every command:
  - balances are non-negative;
  - research levels stay within their maximum;
  - average prices are non-negative;
  - no achievement is unlocked twice.

Money is an exact `real`. Counts are `nat`. Timestamps are `int` milliseconds.
The uniform draw of `Math.random` is a parameter `u` with 0 ≤ u < 1. The clock
reading of `Date.now` is a parameter `now`.

The achievement pass follows the code's wiring:
- The pass reads the state as it was when the command was issued.
- The pass runs only after a click, a successful purchase, hire or research, a
  profitable sale, or a prestige.
- It never runs after a coin purchase or a tick.

## Model

| member | source | states |
|---|---|---|
| Catalog.EquipmentData | gameData.js:2-28 | The twenty equipment entries have distinct ids. Every base cost is at least 10 and every base rate is non-negative. Tiers never decrease in declaration order. |
| Catalog.ManagerData | gameData.js:30-36 | The five managers have distinct ids. A manager is of autoclick type exactly when it is the junior manager. Every effect is at least 1. |
| Catalog.ResearchData | gameData.js:38-45 | The six research entries have distinct ids, a positive maximum level, a positive base cost and a non-negative effect. |
| Catalog.CryptoData | gameData.js:47-53 | The five coins have distinct ids, a positive base price and a volatility in [0, 1). |
| Catalog.AchievementData | gameData.js:55-76 | The twenty achievements have distinct ids and positive rewards. The "all managers" and "all research" thresholds equal the sizes of those catalogs. |
| Catalog.EquipmentIndex | src/GameContext.jsx:160 | Looking up an equipment id always finds the catalog entry with that id. |
| Catalog.ManagerIndex | src/GameContext.jsx:180 | Looking up a manager id always finds the catalog entry with that id. |
| Catalog.ResearchIndex | src/GameContext.jsx:198 | Looking up a research id always finds the catalog entry with that id. |
| Catalog.CryptoIndex | src/GameContext.jsx:221 | Looking up a coin id always finds the catalog entry with that id. |
| Economy.Pow | src/GameContext.jsx:24 | Computes `b` to a natural power by repeated multiplication, as `Math.pow` does for the integer exponents the cost curves use. |
| Economy.PowAtLeastOne | src/GameContext.jsx:24 | A base of at least 1 raised to any natural power is at least 1. |
| Economy.EquipmentCost | src/GameContext.jsx:23-25 | The price of the next unit is never below the base cost. |
| Economy.EquipmentCostStep | src/GameContext.jsx:23-25 | One more owned unit never lowers the price. It strictly raises the price when the base cost is at least 10. |
| Economy.EquipmentCostMonotone | src/GameContext.jsx:23-25 | The price never decreases as the owned count grows. It strictly increases when the base cost is at least 10. |
| Economy.CatalogEquipmentCostIncreasing | src/GameContext.jsx:23-25 | Every catalog item gets strictly dearer with each unit owned. |
| Economy.ResearchCost | src/GameContext.jsx:27-29 | The research price is never below the base cost. |
| Economy.ResearchCostExact | src/GameContext.jsx:27-29 | No rounding happens: the price is exactly baseCost × 2^level. |
| Economy.ResearchCostDoubles | src/GameContext.jsx:27-29 | The price of the next level is exactly twice the price of the current one. |
| Economy.FloorSqrt | src/GameContext.jsx:274 | The result r satisfies r² ≤ n < (r+1)². |
| Economy.PrestigeReward | src/GameContext.jsx:274 | Computes the integer square root of the whole millions earned. `PrestigeRewardSquareRoot` proves it equals floor(sqrt(totalCoinsEarned / 10^6)). |
| Economy.PrestigeRewardSquareRoot | src/GameContext.jsx:274-279 | The reward is the largest k ≥ 0 with k² ≤ totalCoinsEarned / 10^6. It is positive exactly when at least one million coins were earned. |
| Economy.PrestigeRewardPositive | src/GameContext.jsx:274-279 | Prestige pays a reward exactly when at least one million coins have been earned. Otherwise it is refused. |
| Economy.Quote | src/GameContext.jsx:222 | Computes the quote basePrice × (1 + (u − 0.5) × volatility × 2) for the uniform draw `u`. |
| Economy.QuoteDeviation | src/GameContext.jsx:222 | A quote lies within basePrice × (1 ± volatility). |
| Economy.QuoteBounds | src/GameContext.jsx:249 | A quote for a catalog coin lies strictly between 0 and twice its base price. |
| Economy.TradeValue | src/GameContext.jsx:223 | Computes the value of `amount` units at `price` each, summed unit by unit. |
| Economy.TradeValueIsProduct | src/GameContext.jsx:223 | Adding up `amount` unit prices gives exactly price × amount, the total a purchase pays. |
| Economy.TradeValueNonNegative | src/GameContext.jsx:250 | A sale at a non-negative quote has a non-negative value. |
| Economy.TradeValueCompare | src/GameContext.jsx:250-252 | A sale of at least one unit is worth more than its cost at the average price exactly when the quote exceeds the average price. |
| Economy.MergeHolding | src/GameContext.jsx:231-235 | The held amount grows by exactly the amount bought. |
| Economy.MergeHoldingCostBasis | src/GameContext.jsx:231-235 | The new average price keeps the book value: new average × new amount = old book value + amount paid. A first purchase's average is its price. The new average lies between the old average and the price paid. |
| Economy.MergeHoldingAverage | src/GameContext.jsx:231-235 | The same cost-basis facts, with the amount paid written as price × amount. |
| Economy.WeightedAverage | src/GameContext.jsx:233-234 | The weighted average of two prices reproduces the total and lies between the two prices. |
| Economy.Abbreviate | src/GameContext.jsx:15-20 | The suffix is T, B, M or K exactly when the number reaches 10^12, 10^9, 10^6 or 10^3, checked from the largest down. Otherwise there is no suffix, and the mantissa is the whole part of the number: a whole number within 1 below it. With a suffix, the mantissa times the suffix's scale is the number, the mantissa is at least 1, and it is below 1000 except under T. |
| Production.BaseCps | src/GameContext.jsx:80-86 | Computes the sum of owned × baseCps over the equipment catalog. |
| Production.ManagerMultiplier | src/GameContext.jsx:88-96 | Computes the product of the effects of the hired multiplier managers. Other managers contribute 1. |
| Production.ResearchMultiplier | src/GameContext.jsx:98-104 | Computes the product of 1 + effect × level over the started cpsBoost research. Other research contributes 1. |
| Production.PrestigeMultiplier | src/GameContext.jsx:106-109 | Computes 1 + prestigeBonus / 100 when there is a bonus, and 1 otherwise. |
| Production.ProductionRate | src/GameContext.jsx:78-111 | Computes coins per second: the base rate times the manager, research and prestige multipliers. |
| Production.ProductionRateAtLeastBase | src/GameContext.jsx:78-111 | The rate is at least the equipment base rate, which is never negative. |
| Production.BaseCpsNonNegative | src/GameContext.jsx:80-86 | The sum of owned × baseCps is never negative. |
| Production.ManagerMultiplierAtLeastOne | src/GameContext.jsx:88-96 | The manager multiplier is at least 1. |
| Production.ResearchMultiplierAtLeastOne | src/GameContext.jsx:98-104 | The research multiplier is at least 1. |
| Production.NonMultiplierManagerIgnored | src/GameContext.jsx:90-96 | Hiring a manager that is not of multiplier type leaves the manager multiplier unchanged. |
| Production.JuniorDoesNotAffectRate | src/GameContext.jsx:88-96 | Hiring the autoclick manager leaves the production rate unchanged. |
| Production.NonCpsResearchIgnored | src/GameContext.jsx:99-104 | Changing the level of a research that is not of cpsBoost type leaves the research multiplier unchanged. |
| Production.NonCpsResearchDoesNotAffectRate | src/GameContext.jsx:98-104 | Changing the level of offlineBoost or prestigeBoost research leaves the production rate unchanged. |
| Production.BaseCpsOtherId | src/GameContext.jsx:81-86 | Equipment outside the summed entries does not count towards their sum. |
| Production.BaseCpsAddOne | src/GameContext.jsx:81-86 | One more unit of an entry raises the base rate by exactly that entry's baseCps. |
| Production.BuyingEquipmentRaisesBaseCps | src/GameContext.jsx:81-86 | Buying one unit of any catalog equipment raises the base rate by exactly its baseCps. |
| Production.ManagerMultiplierOtherId | src/GameContext.jsx:90-96 | A manager outside the entries does not change their product. |
| Production.HireMultiplierScales | src/GameContext.jsx:90-96 | Hiring a multiplier manager scales the manager product by its effect. |
| Production.HiringMultiplierScalesRate | src/GameContext.jsx:88-111 | Hiring a multiplier manager scales the whole production rate by its effect. |
| Achievements.EquipmentTotal | src/GameContext.jsx:317 | Computes the units of equipment owned in all. |
| Achievements.Satisfied | src/GameContext.jsx:312-338 | Decides whether the figures meet an achievement. Each kind compares its counter with the requirement. The speed run asks for a million coins earned within five minutes of the start. |
| Achievements.UnlockIds | src/GameContext.jsx:306-349 | Computes the ids the pass appends, in catalog order: those not yet unlocked whose predicate holds. |
| Achievements.UnlockReward | src/GameContext.jsx:341-345 | Computes the golden blocks the same pass grants. |
| Achievements.RewardOf | src/GameContext.jsx:344 | Computes the total catalog reward of a list of achievement ids. |
| Achievements.RewardOfConcat | src/GameContext.jsx:344 | The reward of two lists together is the sum of their rewards. |
| Achievements.UnlockRewardIsRewardOf | src/GameContext.jsx:341-346 | When every scanned entry is the catalog entry of its id, the blocks the pass grants are exactly the rewards of the ids it appends. |
| Achievements.CatalogUnlockReward | src/GameContext.jsx:306-350 | The catalog pass grants exactly the rewards of the achievements it unlocks, each once. |
| Achievements.UnlockIdsOnlyCatalogIds | src/GameContext.jsx:307-349 | The pass appends only ids of catalog entries. |
| Achievements.UnlockIdsFresh | src/GameContext.jsx:308 | The pass never appends an id that is already unlocked. |
| Achievements.UnlockIdsMembership | src/GameContext.jsx:307-346 | An entry is appended exactly when it was not unlocked and its predicate holds. |
| Achievements.UnlockKeepsNoDuplicates | src/GameContext.jsx:341-346 | Appending the pass's ids to an unlock list without duplicates keeps it without duplicates. |
| Achievements.UnlockNothingLeft | src/GameContext.jsx:307-349 | When every entry is unlocked or unmet, the pass appends nothing and grants nothing. |
| Achievements.UnlockIdempotent | src/GameContext.jsx:306-350 | A second pass over the same figures appends nothing and grants nothing. |
| Achievements.UnlockRewardPositive | src/GameContext.jsx:341-345 | The pass grants golden blocks exactly when it unlocks something. |
| Achievements.CatalogUnlockMembership | src/GameContext.jsx:306-350 | An achievement is unlocked by the pass exactly when it was not unlocked before and the state meets its predicate. Catalog order plays no part. |
| Achievements.AllOfCatalogThresholds | src/GameContext.jsx:323-328 | "Automation Expert" needs every catalog manager hired. "Tech Researcher" needs every catalog research started. |
| Achievements.EquipmentTotalEmpty | src/GameContext.jsx:317 | With nothing owned the equipment total is 0. |
| Achievements.EquipmentTotalOtherId | src/GameContext.jsx:317 | Equipment outside the summed entries does not count towards the total. |
| Achievements.EquipmentTotalAddOne | src/GameContext.jsx:317 | One more unit of an entry raises the equipment total by one. |
| Session.SumBaseCps | src/GameContext.jsx:80-86 | The equipment loop computes the base rate. |
| Session.ManagerProduct | src/GameContext.jsx:88-96 | The manager loop computes the manager multiplier. |
| Session.ResearchProduct | src/GameContext.jsx:98-104 | The research loop computes the research multiplier. |
| Session.ApplyPrestige | src/GameContext.jsx:106-109 | The prestige step multiplies by 1 + prestigeBonus/100 when there is a bonus. |
| Session.ComputeRate | src/GameContext.jsx:78-111 | The tick's computation yields exactly the production rate. |
| Session.BuyKeepsPricesNonNegative | src/GameContext.jsx:220-237 | After a purchase at any quote, no position has a negative average price. |
| Session.StaleClickRepeatsFirstCoin | src/GameContext.jsx:138-157 | On a new game, the pass a click runs against the first render always unlocks First Coin again, so two clicks list it twice. |
| Session.NewGameTwoClicksAsWritten | src/GameContext.jsx:138-157 | Two manual clicks on a new game, wired as the source wires them, leave 2 clicks and 12 coins, with an achievement listed twice. |
| Session.GameState.Snapshot | src/GameContext.jsx:313-337 | Computes the figures the achievement predicates read from the state: total earned, the equipment total, clicks, the number of managers and research keys, the prestige count, profitable trades and the start time. |
| Session.GameState.constructor | src/GameContext.jsx:37-60 | A new game starts with 10 coins, 10 earned, click power 1, empty collections and start time `now`. |
| Session.GameState.ResetRun | src/GameContext.jsx:281-298 | Every per-run field goes back to its new-game value. |
| Session.GameState.Tick | src/GameContext.jsx:77-120 | coinsPerSecond becomes the production rate. Coins and total earned each grow by a tenth of it. The total never decreases and the state stays valid. |
| Session.GameState.MineClick | src/GameContext.jsx:139-154 | A manual click earns the click power and counts one click. An automatic click with the junior hired earns 10 and is not counted. The figures stay valid. |
| Session.GameState.BuyEquipment | src/GameContext.jsx:159-172 | The purchase succeeds exactly when the balance covers the price at the owned count before purchase. Then coins drop by that price and the count rises by one. Otherwise nothing changes. |
| Session.GameState.HireManager | src/GameContext.jsx:179-190 | The hire succeeds exactly when the balance covers the cost and the manager is not hired. Then coins drop by the cost and the manager joins the hired set. Otherwise nothing changes. |
| Session.GameState.BuyResearch | src/GameContext.jsx:197-213 | The purchase succeeds exactly when the level is below the maximum and the balance covers the price. Then coins drop by that price and the level rises by one. Otherwise nothing changes, and no level ever exceeds its maximum. |
| Session.GameState.BuyCrypto | src/GameContext.jsx:220-237 | The purchase succeeds exactly when the balance covers quote × amount. Then coins drop by that total and the position merges at the weighted average. Otherwise nothing changes. |
| Session.GameState.SellCrypto | src/GameContext.jsx:243-265 | The sale succeeds exactly when enough units are held. Then coins grow by quote × amount, the units drop and the average is kept. profitTrades grows by one exactly when the quote exceeds the average price. Otherwise nothing changes. |
| Session.GameState.PerformPrestige | src/GameContext.jsx:273-300 | With a zero reward nothing changes. Otherwise golden blocks grow by the reward and prestigeCount by one, the bonus becomes 5 × the new golden blocks, and the run resets to new-game values at `now`. Unlocked achievements are kept. |
| Session.GameState.CheckAchievements | src/GameContext.jsx:306-350 | The pass appends, in catalog order, the ids not yet seen whose predicate the figures meet, and adds their rewards. |
| Session.GameState.Execute | src/GameContext.jsx:138-304 | Each command keeps the state valid and never lowers golden blocks. A click earns as `MineClick` does and counts a manual click. The contract also says whether the source runs the pass afterwards. A click always does. A purchase, hire or research does exactly when it succeeds. A coin purchase never does. A sale does exactly when it succeeds and the quote exceeds the average price. A prestige does exactly when at least a million coins were earned. |
| Session.GameState.Perform | src/GameContext.jsx:138-304 | A command followed by the pass the source runs after it keeps the state valid, and golden blocks never decrease. When the pass runs, the unlock list grows by exactly the ids the pass finds for the figures and unlock list from before the command. Otherwise the list is unchanged. A click always runs the pass; a coin purchase never does. |
| Session.GameState.MineClickAsWritten | src/GameContext.jsx:138-157 | The click earns and counts as `MineClick` does and keeps the figures valid. Its pass reads the first render's figures and unlock list, and it appends what that pass finds whatever the current list holds. |

## Left out

- Persistence is left out because it is I/O: loading the saved state from localStorage, the five-second autosave and JSON serialisation. `lastSave` is written only where a new game starts.
- Timers are not modelled. The 100 ms tick interval, the auto-click interval and notification expiry become single calls: one `Tick`, one `MineClick(true)`. React's batching of state updates is not modelled; each command is atomic.
- Notifications, `currentTab`, and the `settings` and `achievements` pass-through fields are left out; the engine never reads them.
- Floating-point rounding and `toFixed`/`toLocaleString` text are left out. Money is an exact real, and `Abbreviate` models the suffix choice and the number before formatting. A trade's total is `TradeValue`, a sum of unit prices that `TradeValueIsProduct` proves equal to the source's product.
- Catalog ids are one datatype constructor each, so an id missing from its catalog cannot be passed. In the source such an id makes `find` return undefined. The equipment purchase, hire, research and coin-purchase commands then throw. A sale returns without effect, because the owned amount reads as 0.
- Session.GameState.BuyCrypto: requires `amount >= 1`. The trading widget clamps the amount to at least 1 (App.jsx:216), so the source never checks it.
- Session.GameState.SellCrypto: requires `amount >= 1` for the same reason.
- Economy.PrestigeReward: requires a non-negative total. The `Valid` invariant keeps the total non-negative; JavaScript would give NaN for a negative one.
- The equipment total is summed over the catalog rather than over the values of the owned map. The two agree because every key is a catalog id.
- Hired managers are a set, where the source maps each hired id to `true`.
- Stale closures are left out except for the click's (see Findings). The model checks other commands against the state as it was when the command was issued, with the current unlock list.
- Session.GameState.Execute: states the new state of a click and, for every command, whether the pass runs. The rest of each command's new state is stated by the contract of the method it calls: `BuyEquipment`, `HireManager`, `BuyResearch`, `BuyCrypto`, `SellCrypto` and `PerformPrestige`. Repeating all of them in the dispatch contract makes it too costly to verify.
- Session.GameState.Perform: states validity, what the pass appends and that golden blocks never decrease, but not the rest of the new state. The new state of each command is stated by the callees named under `Execute`, and the blocks the pass adds by `CheckAchievements`.

## Findings

| source | as written | input that shows it | evidently intended | confidence | as-written member | corrected member |
|---|---|---|---|---|---|---|
| src/GameContext.jsx:138-157 | `handleMineClick` is memoised with an empty dependency list. The `checkAchievements` it calls therefore always reads the first render's state: an empty unlock list and, in a new game, 10 coins earned. | A new game followed by two manual clicks. First Coin (1 coin earned) is met by the first render's figures, so each click appends it again and pays its reward again. | Each click checks the current state, as the other commands do. No achievement is ever listed or rewarded twice. | high; not executed | Session.GameState.MineClickAsWritten | Session.GameState.Perform |

`Session.StaleClickRepeatsFirstCoin` exhibits the as-written behaviour: on a new game's first-render figures the pass always includes First, so two passes leave it twice in the list. `Session.NewGameTwoClicksAsWritten` plays the two clicks on a new `GameState` and ends with a duplicated unlock list. The corrected `Perform` runs the pass on the current figures and unlock list. `Achievements.UnlockKeepsNoDuplicates` and `Achievements.UnlockIdempotent` prove that it never duplicates an unlock.
