# Startup Empire economy engine, in Dafny

This project models the economy engine of the idle game in
`startup_empire_advanced.py` and proves properties about it. In the game,
a player earns money passively over time and by clicking a "manual work"
button. The money buys businesses, whose price rises with every unit
owned, and one-off upgrades that multiply income. The player can also
"sell the company": this trades lifetime earnings for angel investors,
who raise all income by 5% each.

The project has five modules, one file each:

- `catalog.dfy` (`Catalog`): the business and upgrade tables.
- `rates.dfy` (`Rates`): the cost curve and the income rates.
  `CalculateRates` keeps the engine's two loops. It is proved equal to the
  functions `PassiveIncome` and `ClickValue`, and the lemmas are stated
  about those functions.
- `angels.dfy` (`Angels`): prestige arithmetic. It covers potential
  angels, claimable angels and the threshold for the next angel.
- `economy.dfy` (`Economy`): the player's state as a value, and each
  transition as a function from the old state to the new one. These are
  accrual over time (`Tick`), manual work, the two kinds of purchase and
  prestige. The module also defines the invariant `Inv`, which every
  transition keeps, and `Run`, which applies any sequence of actions.
- `game.dfy` (`Game`): the class `GameState`. Its fields are updated in
  place, as in the source. Each method is proved to perform exactly one
  transition of `Economy`: `ProcessTick` performs `Tick`, `ManualWork`
  performs `Work`, `BuyBusiness` and `BuyUpgrade` perform the functions of
  the same name, and `Prestige` performs `ClaimPrestige`. All of these keep
  `Inv`. The helper `Credit`, which `ProcessTick` calls once the rates are
  known, performs `TickAt`. It promises nothing about `Inv` by itself.

Modelling choices:

- Money and time are exact `real`s, so 1.15, 0.05, 1.2 and 1.5 are exact.
- Python's `int()` of a non-negative value is `.Floor`. `int()` of a
  time difference truncates towards zero, which is `Economy.Truncate`.
- `int(math.sqrt(L / 1_000_000))` is the largest `k` with
  `k * k * 1_000_000 <= L`, computed by an exact integer square root.
- Wall-clock reads (`time.time()`) become a `now` parameter.

Facts about the code that the model makes explicit:

- Prestige builds a new `GameState()` (line 212), so lifetime earnings go
  back to 0. Only the angels and the upgrades are carried over.
- The history chart samples `money` (line 126), not lifetime earnings.
- Every credit goes to both balances and every purchase debits only
  money, so `0 <= money <= lifetime` always holds. This is part of `Inv`.
- The price of a business rises with every purchase only when its base
  cost is at least 7 (`Rates.CostStrictlyIncreasing`). Every catalog base
  cost is at least 15. A base cost of 1 would cost 1 both before and after
  the first purchase (`Rates.CostCanStallForCheapBusinesses`).

## Model

| member | source | states |
|---|---|---|
| Catalog.CatalogFacts | startup_empire_advanced.py:14-30 | Every upgrade multiplier is at least 1. Every business base cost is at least 15. Business ids are pairwise distinct, and so are upgrade ids. |
| Game.GameState.constructor | startup_empire_advanced.py:36-54 | A new game has zero money and lifetime, both clocks at `now`, every catalog business at count 0, no upgrades, no angels, 5% per angel and an empty history. This is the state `Economy.NewGame(now)`, and it satisfies the invariant. |
| Economy.NewGameInv | startup_empire_advanced.py:36-54 | The initial state satisfies the invariant: money within [0, lifetime], every catalog id has a count, no duplicate upgrades, and a bounded, strictly ordered history. |
| Rates.BusinessCost | startup_empire_advanced.py:76-77 | The price of the next unit is a non-negative integer and equals the base cost when none are owned. |
| Rates.CostMonotone | startup_empire_advanced.py:76-77 | For m <= n, the price at count m is at most the price at count n. |
| Rates.CostStrictlyIncreasing | startup_empire_advanced.py:76-77 | With a base cost of at least 7, each purchase raises the price by at least 1. |
| Rates.CatalogCostsStrictlyIncrease | startup_empire_advanced.py:14-22 | Every catalog business costs strictly more after each purchase. |
| Rates.CostCanStallForCheapBusinesses | startup_empire_advanced.py:76-77 | A base cost of 1 costs 1 at count 0 and at count 1, so strict growth needs a lower bound on the base cost. |
| Rates.BaseIncomeOfNothing | startup_empire_advanced.py:81-84 | With no unit owned of any listed business, base income is 0. |
| Rates.BaseIncomeIgnoresUnknownIds | startup_empire_advanced.py:82-84 | A count held under an id that is not in the business list does not change base income. |
| Rates.FindUpgrade | startup_empire_advanced.py:91 | The lookup returns the first upgrade of the list that carries the id: every earlier upgrade has another id. It returns nothing exactly when no upgrade carries the id. |
| Rates.MultiplierAtLeastOne | startup_empire_advanced.py:87-96 | When every catalog multiplier is at least 1, the product over owned upgrades of either kind is at least 1. |
| Rates.MultiplierOrderIndependent | startup_empire_advanced.py:90-96 | Two upgrade lists holding the same ids (as multisets) give the same multiplier, so purchase order does not matter. |
| Rates.UnknownUpgradeHasNoEffect | startup_empire_advanced.py:91-92 | Owning an id that no upgrade carries changes neither multiplier. |
| Rates.AngelBonus | startup_empire_advanced.py:99 | The angel bonus is at least 1 whenever the rate per angel is non-negative. |
| Rates.PassiveIncomeNonNegative | startup_empire_advanced.py:79-101 | Passive income is never negative when multipliers are at least 1 and the rate per angel is non-negative. |
| Rates.PassiveIncomeOfNothing | startup_empire_advanced.py:79-101 | With no business owned, passive income is 0 whatever the upgrades and angels. |
| Rates.PassiveIncomeExample | startup_empire_advanced.py:79-101 | 100 lemonade stands with both global upgrades (1.2 and 1.5) and no angels earn 180 per second. |
| Rates.ClickValueAtLeastOne | startup_empire_advanced.py:103-105 | Under the same conditions, one click is worth at least 1. |
| Rates.ClickValueAppliesAngelBonusTwice | startup_empire_advanced.py:99-105 | Once 5% of passive income reaches 1, the click value is 5% of base income, times both multipliers, times the angel bonus squared. |
| Rates.SumBaseIncome | startup_empire_advanced.py:81-84 | The loop's sum equals base income over the whole catalog. |
| Rates.AccumulateMultipliers | startup_empire_advanced.py:87-96 | The loop's two running products equal the global and the click multipliers of the owned ids. |
| Rates.CalculateRates | startup_empire_advanced.py:79-107 | The returned passive rate and click value are exactly `PassiveIncome` and `ClickValue` of the holdings. |
| Angels.IntSqrt | startup_empire_advanced.py:199 | The result r satisfies r*r <= n < (r+1)*(r+1). |
| Angels.PotentialAngels | startup_empire_advanced.py:199 | The potential k satisfies k*k*1e6 <= max(0, lifetime) < (k+1)*(k+1)*1e6. |
| Angels.PotentialIsLargest | startup_empire_advanced.py:199 | No k with k*k*1e6 <= lifetime exceeds the potential. |
| Angels.PotentialMonotone | startup_empire_advanced.py:199 | More lifetime earnings never mean fewer potential angels. |
| Angels.Claimable | startup_empire_advanced.py:201 | The claimable count is positive exactly when the potential exceeds the angels held, and then the two add up to the potential. |
| Angels.NextAngelThreshold | startup_empire_advanced.py:218 | The displayed threshold exceeds lifetime earnings and is at most the price of any count above the potential. |
| Angels.CaptionThresholdCanClaimNothing | startup_empire_advanced.py:199-218 | When the angels held exceed the potential, lifetime earnings equal to the caption's threshold still leave nothing to claim. |
| Angels.CaptionThresholdAfterPrestige | startup_empire_advanced.py:199-218 | Just after a prestige to 2 angels the caption asks for 1,000,000, and 1,000,000 leaves nothing to claim. |
| Angels.ClaimableIffThreshold | startup_empire_advanced.py:199-206 | Something is claimable exactly when lifetime earnings reach (angels + 1)^2 * 1e6, in both directions. |
| Angels.PrestigeExample | startup_empire_advanced.py:199-218 | 4,000,000 lifetime earnings give potential 2, claimable 2 from 0 held, and a next threshold of 9,000,000. |
| Economy.Truncate | startup_empire_advanced.py:123 | The result lies within 1 of x, on the side of zero. |
| Economy.Sample | startup_empire_advanced.py:124-130 | A refused sample leaves the history as it was. An accepted sample is appended to both lists. Past 100 samples, the oldest is dropped from both. |
| Economy.SampleKeepsHistoryValid | startup_empire_advanced.py:124-130 | Sampling keeps both lists the same length, at most 100, with strictly increasing times. |
| Economy.TickAt | startup_empire_advanced.py:109-130 | If `now` is not after the last tick, nothing changes. Otherwise the clock moves to `now` and money grows by rate times elapsed time. Lifetime grows by the same amount. The new money is offered to the history, and holdings, angels and start time are unchanged. |
| Economy.Accrue | startup_empire_advanced.py:117-130 | Both balances grow by the earnings, the clock moves to `now`, the new money is offered to the history, and no other field changes. |
| Economy.PassiveDependsOnHoldings | startup_empire_advanced.py:79-101 | Two states with the same businesses, upgrades, angels and rate per angel have the same passive income. |
| Economy.TickIdempotent | startup_empire_advanced.py:112-115 | A second tick at the same instant changes nothing. |
| Economy.TickAtAdditive | startup_empire_advanced.py:112-120 | At a fixed rate, ticking to t1 and then to t2 leaves the same money, lifetime and clock as ticking straight to t2. |
| Economy.TickAdditive | startup_empire_advanced.py:109-120 | The same holds for the engine's own tick, because a tick does not change passive income. |
| Economy.AccrueKeepsInv | startup_empire_advanced.py:117-130 | A non-negative credit keeps the invariant. |
| Economy.TickAtKeepsInv | startup_empire_advanced.py:109-130 | A tick at a non-negative rate keeps the invariant. |
| Economy.TickKeepsInv | startup_empire_advanced.py:109-130 | Every tick keeps the invariant. |
| Economy.Work | startup_empire_advanced.py:234-236 | Money and lifetime each grow by exactly the click value, and nothing else changes. |
| Economy.WorkEarnsAtLeastOne | startup_empire_advanced.py:104-105 | Each click adds at least 1 to money and to lifetime. |
| Economy.WorkKeepsInv | startup_empire_advanced.py:234-236 | Manual work keeps the invariant. |
| Economy.BuyBusiness | startup_empire_advanced.py:243-264 | Refused with InsufficientFunds exactly when money is below the price. Otherwise money drops by exactly the price and stays non-negative, and that business's count rises by one. Other counts, the set of ids and every other field are unchanged. |
| Economy.BuyBusinessKeepsInv | startup_empire_advanced.py:262-264 | Every catalog id is in the counts of a valid state, and a purchase keeps the invariant. |
| Economy.FirstLemonadeStandExample | startup_empire_advanced.py:243-264 | With 15 in cash at count 0, buying a lemonade stand leaves 0 in cash and count 1, and the next one costs 17. |
| Economy.BuyUpgrade | startup_empire_advanced.py:274-289 | Refused when the upgrade is owned (AlreadyOwned), else when money is below its cost (InsufficientFunds). Otherwise money drops by the cost and stays non-negative, the id is appended, and nothing else changes. |
| Economy.BuyUpgradeKeepsInv | startup_empire_advanced.py:276-289 | After a purchase the upgrade list still has no duplicates, and the invariant holds. |
| Economy.ClaimPrestige | startup_empire_advanced.py:199-216 | Refused with NothingToClaim exactly when the potential does not exceed the angels held. Otherwise it returns a fresh game at `now` with zero money and lifetime, all counts 0, an empty history and 5% per angel. Angels equal the potential, which is more than before, and the upgrades are kept. |
| Economy.NothingToClaimMeansBelowNextAngel | startup_empire_advanced.py:206-218 | When nothing is claimable, lifetime earnings are below the claim threshold (angels+1)^2 * 1e6. |
| Economy.ClaimPrestigeKeepsInv | startup_empire_advanced.py:209-216 | The state after prestige satisfies the invariant. |
| Economy.Step | startup_empire_advanced.py:109-291 | Any single action leaves a state satisfying the invariant, with no fewer angels. |
| Economy.RunKeepsInv | startup_empire_advanced.py:109-291 | Across any sequence of actions the invariant holds and angels never decrease. |
| Game.GameState.ProcessTick | startup_empire_advanced.py:109-130 | The object's new fields are `Economy.Tick` of its old fields, and the invariant is kept. |
| Game.GameState.Credit | startup_empire_advanced.py:117-130 | The object's new fields are `Economy.TickAt` of its old fields at the given rate. |
| Game.GameState.ManualWork | startup_empire_advanced.py:234-236 | The object's new fields are `Economy.Work` of its old fields, and the invariant is kept. |
| Game.GameState.BuyBusiness | startup_empire_advanced.py:243-266 | When `Economy.BuyBusiness` succeeds, the object holds its result and reports Done. Otherwise the object is unchanged and reports the error. The invariant is kept. |
| Game.GameState.BuyUpgrade | startup_empire_advanced.py:274-291 | When `Economy.BuyUpgrade` succeeds, the object holds its result and reports Done. Otherwise the object is unchanged and reports the error. The invariant is kept. |
| Game.GameState.Prestige | startup_empire_advanced.py:199-218 | When `Economy.ClaimPrestige` succeeds, the result is a fresh object holding its state. Otherwise the same object is returned, unchanged, with the error. The returned object satisfies the invariant. |

## Left out

- Page rendering (layout, columns, tabs, buttons, toasts, balloons, metrics) is presentation. Only the state changes inside the button handlers are modelled.
- The live-mode refresh loop (`time.sleep` and `st.rerun`) belongs to the web framework. Every read of the wall clock is a `now` parameter.
- Save and load (`to_json`, `from_json`, base64) are thin wrappers over library calls. `from_json` sets untyped attributes, so a loaded state need not satisfy the invariant.
- Game.GameState.BuyBusiness: requires a valid state, in which every catalog id has a count. For a loaded save that lacks the id, the source first takes the price from money (line 263) and then raises a KeyError at line 264, so the money is lost and the count is not raised. That path is not modelled.
- `format_currency` is string formatting of floats.
- The Altair and pandas analytics chart is a library visualisation.
- Float rounding (IEEE-754) in money, in `1.15 ** count` and in `math.sqrt` is not modelled. The model computes with exact reals and an exact integer square root. So where base cost times 1.15^count is a whole number, the model's price can be 1 more than the source's. For the second Web Agency the model charges 1500 * 1.15 = 1725 exactly. In doubles 1.15 is slightly below 1.15, the product rounds to 1724.9999999999998, and line 77 truncates it to 1724.
- `st.session_state` is a framework global. Here the state is an explicit object.
- Game.GameState.Prestige: the source's new game shares the old game's upgrade list object. The model copies the list, because the old game is discarded and the sharing cannot be observed.
- Business and upgrade icons and descriptions are display text.

## Findings

| source | as written | input that shows it | evidently intended | confidence | as-written member | corrected member |
|---|---|---|---|---|---|---|
| startup_empire_advanced.py:218 | The caption asks for (potential + 1)^2 * 1e6 lifetime earnings, where potential counts from the current lifetime earnings. | Just after a prestige to 2 angels, lifetime is 0. The caption asks for 1,000,000, but 1,000,000 gives potential 1, and nothing is claimable until 9,000,000. | The threshold at which one more angel becomes claimable, (angels + 1)^2 * 1e6. | not executed; high | Angels.CaptionThresholdAfterPrestige | Angels.ClaimableIffThreshold |
