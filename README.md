# Farming market simulation: verified model of the game state

The repository is a browser farming game. The player:
- buys seeds,
- plants them on a 10 x 10 farm,
- advances the calendar month by month,
- harvests grown crops.

Meanwhile the market price of each of the four crops (lettuce, carrot, tomato, onion) follows a random walk. Prices move on odd months.

Two versions of the game script exist. They share the state record `gameData` and differ in the economics:

- `GAME_MAIN/GAME.js`, modelled by module `GameMain` (game_main.dfy):
  - a seed costs the crop's *current market price*;
  - a harvest pays a *fixed sell price*;
  - prices walk around the seed price, are rounded, and are then clamped into `[1, 2.5 x seed price]`;
  - the game ends after twelve months.
- `GAME/GAME.js`, modelled by module `Game` (game.dfy):
  - a seed costs a *fixed seed price*;
  - a harvest pays the crop's *latest market price*;
  - prices walk around a base price, are clamped into `[seed price + 10, 2 x base price]`, and are rounded last;
  - months run on without end.

Shared entities live in `Farm` (farm.dfy):
- the crops and their seed prices and growing times;
- a planted plot and its readiness;
- the season table;
- the labels of the price chart.

`Pricing` (pricing.dfy) holds:
- JavaScript's `Math.round` over exact reals;
- an integer clamp;
- the lemma that clamping with integer bounds commutes with rounding.

`Text` (text.dfy) holds:
- `startsWith`/`includes`;
- the decimal rendering of a month count, with its parse-back round trip.

In each game module, `gameData` together with the UI globals `selectedSeed` and `isHarvesting` is a class `Session`. It has these fields:
- `money` and `month`;
- the stored `season`;
- a `map<Crop, seq<int>>` of price histories;
- the 100-slot `array<Option<Plot>>` farm;
- the two mode variables.

Each event handler is a method that updates those fields in place. It is proved against an invariant `Valid()`:
- money is never negative;
- the stored season is the season of the month;
- a seed selection and harvest mode are never active together;
- every planted month lies between 1 and the current month;
- all four histories have equal length, with every price inside the crop's band.

`GameMain` also keeps the month within 1..13 from the moment the state is created. Once the page has loaded, each history holds 7 prices plus one per odd month from 3 to 11 reached so far.

`Math.random()` is not modelled as such. Each draw enters as a parameter:
- `draw(i, c)` for round `i` of history generation;
- `draw(c)` for a month advance.

Each draw gives the perturbed price `referencePrice * (1 + changeRate)` as an exact real. `RawPrice` shows how a draw `u` in `[0, 1)` produces it.

Points of the two scripts that shape the model:
- `GAME_MAIN/GAME.js` pays the fixed sell price on a harvest, not the market price.
- The two price generators differ.
  - `GAME_MAIN/GAME.js` rounds first, then floors the price at 1 and caps it at 2.5 times the seed price.
  - `GAME/GAME.js` raises the price to the seed price + 10, caps it at twice the base price, and rounds last. `Game.GenerateMonthlyPriceIsClamp` proves that this ordering gives the same result as rounding first.
- Both scripts store the season in `gameData` and refresh it only in `updateInfoPanel`.
  - In `GAME_MAIN/GAME.js` the advance that ends the game (month 12 to 13) redraws nothing. The stored season and the farm's ready-to-harvest marks therefore stay those of month 12.
  - `GameMain.Session` keeps this as the field `renderedMonth`.
- `GAME/GAME.js` registers its next-month handler at script load, before the page-load handler fills the price histories. The plot, seed and harvest handlers are installed inside the page-load handler, after the histories are filled.
  - `Game.Session` is therefore created with empty histories (the constructor), and `LoadPage` fills them.
  - The model accepts every handler in the state before loading, which is more than the script allows. There a harvest would report `PriceDataError`; in the script that check is unreachable.
- In `GAME_MAIN/GAME.js` the lettuce seed button is looked up by `'lettuce'`; in `GAME/GAME.js` by `'letus'`.

## Model

| member | source | states |
|---|---|---|
| Text.StartsWith | GAME/GAME.js:212 | `id.startsWith(prefix)` holds exactly when the id is at least as long as the prefix and agrees with it character by character |
| Text.Contains | GAME/GAME.js:56-59 | the `includes` search only succeeds when the key is no longer than the id |
| Text.ContainsIff | GAME/GAME.js:55-61 | the recursive `includes` holds exactly when the key occurs at some offset of the button id |
| Text.ContainsOccurs | GAME/GAME.js:55-61 | when the `includes` search succeeds the key occurs at some offset of the id |
| Text.OccursContains | GAME/GAME.js:55-61 | every occurrence of the key at any offset is found by the `includes` search |
| Text.NatToString | GAME/GAME.js:402-408 | the rendering of a month count is a non-empty string of decimal digits, with a leading zero only for 0 itself, which then is the whole string |
| Text.ParseNatToString | GAME/GAME.js:402-408 | reading the rendered month count back gives the number: the label is lossless |
| Farm.AllCropsIndexed | GAME/GAME.js:273-278 | the key order of `priceHistory` lists each crop once, at its index |
| Farm.AppendRound | GAME/GAME.js:507-515 | one pass of the push loop keeps the set of crops with a history |
| Farm.PartlyAppendedStep | GAME/GAME.js:507-515 | visiting the next crop of the push loop appends that crop's price and no other |
| Farm.PartlyAppendedDone | GAME/GAME.js:507-515 | after all four crops the loop has appended exactly one price to every history |
| Farm.Ready | GAME/GAME.js:100 | `month >= plantedMonth + growTime`; a crop is never ready in the month it was planted |
| Farm.Remaining | GAME_MAIN/GAME.js:229-230 | the remaining months are at most 0 exactly when the crop is ready, so the two versions' readiness tests agree |
| Farm.ReadyPersists | GAME_MAIN/GAME.js:229-235 | a plot that is ready stays ready in every later month |
| Farm.PlantedByLater | GAME_MAIN/GAME.js:189-190 | planting months recorded at or before the current month stay so as the month grows |
| Farm.SeasonOf | GAME/GAME.js:321-323 | `seasons[(month-1) % 12]` is the season of quarter `((month-1) % 12) / 3`: three months each of spring, summer, autumn and winter |
| Farm.SeasonTableByQuarter | GAME_MAIN/GAME.js:312 | entry k of the twelve-entry table is the season of quarter k / 3 |
| Farm.SeasonRepeatsYearly | GAME_MAIN/GAME.js:311-313 | the season repeats every twelve months |
| Farm.MonthsAgo | GAME_MAIN/GAME.js:488-489 | the latest chart point is 0 months ago and each earlier point two months further back |
| Farm.LabelText | GAME_MAIN/GAME.js:490 | a label is '今' exactly for 0 months ago; otherwise it is a decimal count followed by the suffix, and the count reads back unchanged |
| Farm.ChartLabels | GAME_MAIN/GAME.js:484-491 | there is one label per history entry |
| Farm.ChartLabelMeaning | GAME/GAME.js:395-410 | only the last label reads '今'; label i is the decimal text of `(latest - i) * 2` followed by the suffix, and that number parses back |
| Pricing.JsRound | GAME/GAME.js:391 | `Math.round(x)` is an integer within one half of x, halves rounded up |
| Pricing.JsRoundOfInteger | GAME_MAIN/GAME.js:383 | rounding a whole number returns it unchanged |
| Pricing.JsRoundMonotone | GAME/GAME.js:391 | rounding preserves order |
| Pricing.Clamp | GAME/GAME.js:384-389 | the result lies in the band, equals the input inside it and the nearer bound outside it |
| Pricing.RoundClampCommute | GAME/GAME.js:384-391 | clamping an unrounded price into integer bounds and then rounding equals rounding first and clamping afterwards |
| GameMain.ChangeRate | GAME_MAIN/GAME.js:373-377 | for a draw in [0, 1) lettuce's rate lies in [-0.5, 0.85) and the other crops' in [-volatility, volatility) |
| GameMain.RawPrice | GAME_MAIN/GAME.js:378 | for a draw in [0, 1) the perturbed seed price lies in [1, 2.5 * seedPrice) |
| GameMain.PriceCap | GAME_MAIN/GAME.js:383 | the cap is exactly 2.5 times the seed price |
| GameMain.CapIsExact | GAME_MAIN/GAME.js:383 | `Math.round(seedPrice * 2.5)` is the cap: rounding the whole number changes nothing |
| GameMain.GenerateMonthlyPrice | GAME_MAIN/GAME.js:369-386 | every generated price lies in `[1, round(2.5 * seedPrice)]` |
| GameMain.GenerateMonthlyPriceIsClamp | GAME_MAIN/GAME.js:378-385 | the generator is exactly the rounded perturbed price clamped into `[1, round(2.5 * seedPrice)]`, so an integer raw price is modelled faithfully |
| GameMain.ClampNeverBinds | GAME_MAIN/GAME.js:373-385 | for every draw in [0, 1) the rounded perturbed price is already in the band, so neither bound ever changes a price |
| GameMain.PricesDrawn | GAME_MAIN/GAME.js:358-365 | n generated rounds give n prices per crop, all inside the crop's band |
| GameMain.CropFromButtonId | GAME_MAIN/GAME.js:302-308 | the crop returned is the first one in search order whose key the button id contains; none only when no key occurs |
| GameMain.HistoryOfEveryCrop | GAME_MAIN/GAME.js:18-29 | in a well-formed state every crop has a history of the common length with every price in its band |
| GameMain.AppendRoundWellformed | GAME_MAIN/GAME.js:341-347 | pushing one in-band price per crop keeps the histories of equal length and in band |
| GameMain.RoundPricesInBand | GAME_MAIN/GAME.js:358-365 | every round of history generation yields an in-band price for each crop |
| GameMain.MonthPricesInBand | GAME_MAIN/GAME.js:341-347 | a price move yields an in-band price for each crop |
| GameMain.CropDrawnStep | GAME_MAIN/GAME.js:359-363 | one more generation round extends a crop's history by its next drawn price |
| GameMain.DrawnSoFarStep | GAME_MAIN/GAME.js:359-363 | one more generation round extends every crop's history by its next drawn price |
| GameMain.DrawnOfCrop | GAME_MAIN/GAME.js:359-363 | the drawn-so-far relation holds crop by crop |
| GameMain.DrawnFromEmpty | GAME_MAIN/GAME.js:18-29 | generation that starts from the empty histories of `gameData` leaves exactly the drawn prices |
| GameMain.FluctuationsStep | GAME_MAIN/GAME.js:341-342 | an advance within the game adds one price move exactly when it lands on an odd month |
| GameMain.Session.constructor | GAME_MAIN/GAME.js:18-29 | the initial `gameData`: 1000 money, month 1, spring, empty histories, an empty farm, no mode |
| GameMain.Session.LoadPage | GAME_MAIN/GAME.js:50-59 | generating the history on the fresh `gameData` leaves every crop's history exactly its seven drawn prices, and establishes the full invariant |
| GameMain.Session.CurrentPrice | GAME_MAIN/GAME.js:390-393 | `getCurrentPrice` is the last, in-band entry of the crop's non-empty history |
| GameMain.Session.Labels | GAME_MAIN/GAME.js:484-491 | the chart has one label per history entry and the last reads '今' |
| GameMain.Session.PushRound | GAME_MAIN/GAME.js:342-347 | the push loop appends exactly the given price to every crop's history |
| GameMain.Session.GenerateInitialHistory | GAME_MAIN/GAME.js:358-365 | seven rounds append to each crop's history its first seven drawn prices |
| GameMain.Session.GenerateRound | GAME_MAIN/GAME.js:361-363 | the inner loop of round i appends each crop's i-th drawn price, keeping the histories well formed |
| GameMain.Session.ResetSelection | GAME_MAIN/GAME.js:291-300 | no seed is selected and harvest mode is off |
| GameMain.Session.ItemSlotClick | GAME_MAIN/GAME.js:264-278 | ids without the seed-button prefix change nothing; otherwise harvest mode ends, and the seed is deselected if it was the clicked one or else becomes the clicked one |
| GameMain.Session.HarvestClick | GAME_MAIN/GAME.js:280-289 | harvest mode is toggled and any seed is dropped |
| GameMain.Session.PlotClick | GAME_MAIN/GAME.js:174-212 | planting happens exactly on an empty plot with a seed selected and money at least the current price, and costs exactly that price and changes only that plot. Funds below the price are rejected with no change. A harvest happens exactly in harvest mode on a plot shown ready, and pays the fixed sell price and empties only that plot. Nothing else ever changes state, and the price-data error never occurs. |
| GameMain.Session.NextMonth | GAME_MAIN/GAME.js:322-356 | the game is finished exactly when the month was already 12 or more. Past month 12 nothing changes; the advance to 13 changes only the month. Otherwise the month rises by one, every history grows by one price exactly on odd months, the seed is dropped, harvest mode is on and the season follows the month. |
| GameMain.Session.AdvanceMonth | GAME_MAIN/GAME.js:328-356 | an advance within the game: month + 1, a price move on odd months, harvest mode, the season of the new month |
| Game.ChangeRate | GAME/GAME.js:370-379 | for a draw in [0, 1) lettuce's rate lies in [-0.5, 0.35) and the other crops' in [-volatility, volatility) |
| Game.RawPrice | GAME/GAME.js:381 | for a draw in [0, 1) the perturbed base price lies in [seedPrice + 10, 2 * basePrice) |
| Game.PriceFloor | GAME/GAME.js:384-386 | the floor `seedPrice + 10` exceeds the seed price, so a harvest always earns more than the seed cost |
| Game.PriceCeiling | GAME/GAME.js:387-389 | the ceiling `basePrice * 2` exceeds the base price and the floor, so the band is never empty |
| Game.GenerateMonthlyPrice | GAME/GAME.js:365-392 | every generated price lies in `[seedPrice + 10, 2 * basePrice]` |
| Game.GenerateMonthlyPriceIsClamp | GAME/GAME.js:383-391 | raising, capping and then rounding equals clamping the rounded raw price, so an integer raw price is modelled faithfully |
| Game.ClampNeverBinds | GAME/GAME.js:365-391 | for every draw in [0, 1) the perturbed price is already in the band, so neither bound ever changes a price |
| Game.PricesDrawn | GAME/GAME.js:545-558 | n generated rounds give n prices per crop, all inside the crop's band |
| Game.CropFromButtonId | GAME/GAME.js:55-61 | the crop returned is the first one in search order ('letus', 'carot', 'tomato', 'onion') whose key the id contains; none only when no key occurs |
| Game.HistoryOfEveryCrop | GAME/GAME.js:268-281 | in a well-formed state every crop has a history of the common length with every price in its band |
| Game.AppendRoundWellformed | GAME/GAME.js:507-515 | pushing one in-band price per crop keeps the histories of equal length and in band |
| Game.RoundPricesInBand | GAME/GAME.js:545-558 | every round of history initialisation yields an in-band price for each crop |
| Game.MonthPricesInBand | GAME/GAME.js:507-515 | a price move yields an in-band price for each crop |
| Game.CropDrawnStep | GAME/GAME.js:545-551 | one more initialisation round extends a crop's history by its next drawn price |
| Game.DrawnSoFarStep | GAME/GAME.js:545-551 | one more initialisation round extends every crop's history by its next drawn price |
| Game.DrawnNothing | GAME/GAME.js:542-545 | before the first round every history is the one initialisation started from |
| Game.DrawnOfCrop | GAME/GAME.js:545-558 | the drawn-so-far relation holds crop by crop |
| Game.DrawnEveryCrop | GAME/GAME.js:545-558 | after n rounds each crop's history is its old history followed by its first n draws |
| Game.Session.constructor | GAME/GAME.js:268-281 | the initial `gameData`: 1000 money, month 1, spring, empty histories, an empty farm, no mode |
| Game.Session.LoadPage | GAME/GAME.js:540-558 | six past rounds and then the first month's round append to each crop's history exactly its first seven draws, and keeps the full invariant |
| Game.Session.GenerateHistory | GAME/GAME.js:544-558 | the two generation loops append to each crop's history exactly its first seven draws, keeping the histories well formed |
| Game.Session.GeneratePastRounds | GAME/GAME.js:542-551 | the six past rounds append to each crop's history its first six draws |
| Game.Session.GenerateRound | GAME/GAME.js:546-550 | the inner loop of round i appends each crop's i-th drawn price, keeping the histories well formed |
| Game.Session.LatestPrice | GAME/GAME.js:174-181 | the harvest price is the last, in-band entry of the crop's history, and is missing exactly when the history is empty |
| Game.Session.Labels | GAME/GAME.js:395-410 | the chart has one label per history entry and the last reads '今' when there is any |
| Game.Session.PushRound | GAME/GAME.js:507-515 | the push loop appends exactly the given price to every crop's history |
| Game.Session.ItemSlotClick | GAME/GAME.js:208-236 | ids without the seed-button prefix change nothing; re-clicking the selected seed deselects it and leaves harvest mode alone; another seed is selected and harvest mode ends |
| Game.Session.HarvestClick | GAME/GAME.js:242-257 | the seed is dropped and harvest mode is toggled |
| Game.Session.PlotClick | GAME/GAME.js:133-203 | planting happens exactly on an empty plot with a seed selected and money at least the seed price, and costs exactly that price and changes only that plot. Funds below the price are rejected with no change. A harvest happens exactly in harvest mode on a ready plot whose crop has a price, and pays that latest price and empties only that plot. With no price it is rejected with no change. Otherwise nothing changes, and the season stays that of the month. |
| Game.Session.NextMonth | GAME/GAME.js:499-537 | every advance raises the month by one with no end. Every history grows by one price exactly on odd months. The seed is dropped, harvest mode is on and the season follows the month. |

## Left out

- DOM and Chart.js rendering are not modelled. This covers the plot cells and their marks, the price chart and its axis scaling, the current-price list, button styling, overlays, the end-of-game report, tab switching, help pages and the title confirmation. They hold no state beyond the page.
- Mouse and touch plumbing (held-down drags, `elementFromPoint`) and reading the plot index from the element are not modelled. A drag only repeats `handlePlotClick`, and `PlotClick` takes a valid index.
- `Math.random` and floating-point arithmetic are not modelled. Each draw is a parameter carrying the perturbed price as an exact real, and the order in which the script consumes random numbers is abstracted into the draw's indices.
- Alerts and overlays become the outcomes `InsufficientFunds` and `PriceDataError`; silent returns become `Ignored`.
- `ENABLE_GAME_TIMER` is a constant `true` in `GAME_MAIN/GAME.js`, so the configuration without a game timer is not modelled.
- The button text and colour set when `GAME_MAIN/GAME.js` reaches month 12 are not modelled; they are presentation only.
- GameMain.Session.HarvestClick still toggles harvest mode from month 13 on. In `GAME_MAIN/GAME.js`, `showGameResult` disables the harvest button at that point, so the click can no longer happen. The model does not capture this disabled button.
- In `GAME_MAIN/GAME.js` every event handler is installed by the page-load handler after `generateInitialHistory`, so the handlers of `GameMain.Session` require the loaded state. Planting with an empty history (a `NaN` money balance) is therefore unreachable and not modelled.
- GameMain.Session.PlotClick: the script's `fixedSellPrice === undefined` check can never fire, because every crop has a fixed sell price. The contract states that `PriceDataError` never occurs.
