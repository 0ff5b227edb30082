// The game state of GAME_MAIN/GAME.js: seeds cost the crop's current market
// price, a harvest pays the crop's fixed sell price, and the game ends after
// twelve months.
module GameMain {
  import opened Farm
  import opened Pricing
  import Text

  const InitialMoney := 1000
  const GameDurationMonths := 12
  /** Past prices generated before the first month; one more is the current price. */
  const PastHistoryCount := 6
  const SeedButtonPrefix := "seed-button"
  /** Suffix of the chart labels, "<n> months ago". */
  const LabelSuffix := "ヶ月前"

  /** Rounds of `generateInitialHistory`: the past prices and the current one. */
  function InitialRounds(): nat
  {
    PastHistoryCount + 1
  }

  /** `PRICE_BASE[c].fixedSellPrice`, the payout of a harvest. */
  function FixedSellPrice(c: Crop): nat
  {
    match c
    case Lettuce => 160
    case Carrot => 280
    case Tomato => 450
    case Onion => 550
  }

  /** Lettuce's asymmetric change-rate band. */
  const LettuceMinVolatility: real := -0.5
  const LettuceMaxVolatility: real := 0.85

  /** `PRICE_BASE[c].volatility` of the symmetric crops. */
  function Volatility(c: Crop): real
    requires c != Lettuce
  {
    match c
    case Carrot => 0.15
    case Tomato => 0.35
    case Onion => 0.15
  }

  /** The change rate drawn from `u = Math.random()`: for a draw in [0, 1)
      lettuce moves within [-50%, +85%), the others within ±volatility. */
  function ChangeRate(c: Crop, u: real): (r: real)
    ensures 0.0 <= u < 1.0 && c == Lettuce ==> LettuceMinVolatility <= r < LettuceMaxVolatility
    ensures 0.0 <= u < 1.0 && c != Lettuce ==> -Volatility(c) <= r < Volatility(c)
  {
    if c == Lettuce then u * (LettuceMaxVolatility - LettuceMinVolatility) + LettuceMinVolatility
    else u * 2.0 * Volatility(c) - Volatility(c)
  }

  /** `seedPrice * (1 + changeRate)`: this version anchors the walk on the
      seed price, and a draw in [0, 1) lands inside `[1, PriceCap(c))`. */
  function RawPrice(c: Crop, u: real): (raw: real)
    ensures 0.0 <= u < 1.0 ==> 1.0 <= raw < PriceCap(c) as real
  {
    SeedPrice(c) as real * (1.0 + ChangeRate(c, u))
  }

  /** The price ceiling `Math.round(seedPrice * 2.5)`, worked out per crop:
      exactly 2.5 times the seed price, every seed price being even. */
  function PriceCap(c: Crop): (cap: int)
    ensures cap as real == SeedPrice(c) as real * 2.5
  {
    match c
    case Lettuce => 125
    case Carrot => 250
    case Tomato => 300
    case Onion => 375
  }

  /** 2.5 times a seed price is a whole number, so rounding it changes
      nothing: the cap is the script's rounded ceiling. */
  lemma CapIsExact(c: Crop)
    ensures PriceCap(c) == JsRound(SeedPrice(c) as real * 2.5)
  {
    JsRoundOfInteger(PriceCap(c));
  }

  /** The band every generated price lies in. */
  predicate InBand(c: Crop, p: int)
  {
    1 <= p <= PriceCap(c)
  }

  predicate AllInBand(c: Crop, prices: seq<int>)
  {
    forall k :: 0 <= k < |prices| ==> InBand(c, prices[k])
  }

  /** `generateMonthlyPrice(cropId)`, given the perturbed price
      `seedPrice * (1 + changeRate)` of the month's draw (see RawPrice): round
      it, raise it to 1, cap it at 2.5 times the seed price. */
  function GenerateMonthlyPrice(c: Crop, raw: real): (p: int)
    ensures InBand(c, p)
  {
    CapIsExact(c);
    var rounded := JsRound(raw);
    var floored := if rounded < 1 then 1 else rounded;
    if floored as real > SeedPrice(c) as real * 2.5 then JsRound(SeedPrice(c) as real * 2.5) else floored
  }

  /** The generator is the rounded raw price clamped into [1, PriceCap(c)],
      so an integer raw price loses nothing. */
  lemma GenerateMonthlyPriceIsClamp(c: Crop, raw: real)
    ensures GenerateMonthlyPrice(c, raw) == Clamp(JsRound(raw), 1, PriceCap(c))
  {
    CapIsExact(c);
  }

  /** For a draw in [0, 1) the perturbed price already lies in the band:
      neither the floor nor the ceiling of this version ever takes effect. */
  lemma ClampNeverBinds(c: Crop, u: real)
    requires 0.0 <= u < 1.0
    ensures InBand(c, JsRound(RawPrice(c, u)))
    ensures GenerateMonthlyPrice(c, RawPrice(c, u)) == JsRound(RawPrice(c, u))
  {
    var raw := RawPrice(c, u);
    JsRoundOfInteger(1);
    JsRoundOfInteger(PriceCap(c));
    JsRoundMonotone(1.0, raw);
    JsRoundMonotone(raw, PriceCap(c) as real);
  }

  /** The first n prices drawn for crop c, the i-th from the perturbed price `draw(i, c)`. */
  function PricesDrawn(c: Crop, draw: (nat, Crop) -> real, n: nat): (prices: seq<int>)
    ensures |prices| == n && AllInBand(c, prices)
  {
    if n == 0 then [] else PricesDrawn(c, draw, n - 1) + [GenerateMonthlyPrice(c, draw(n - 1, c))]
  }

  /** The substring each seed button id is searched for, in search order. */
  function ButtonKey(c: Crop): string
  {
    match c
    case Lettuce => "lettuce"
    case Carrot => "carot"
    case Tomato => "tomato"
    case Onion => "onion"
  }

  /** `getCropIdFromSeedButtonId`: the first crop, in search order, whose key
      occurs in the button id, or none. */
  function CropFromButtonId(buttonId: string): (r: Option<Crop>)
    ensures r.Some? ==>
      Text.Contains(buttonId, ButtonKey(r.value)) &&
      (forall d :: Index(d) < Index(r.value) ==> !Text.Contains(buttonId, ButtonKey(d)))
    ensures r.None? ==> forall d :: !Text.Contains(buttonId, ButtonKey(d))
  {
    if Text.Contains(buttonId, "lettuce") then Some(Lettuce)
    else if Text.Contains(buttonId, "carot") then Some(Carrot)
    else if Text.Contains(buttonId, "tomato") then Some(Tomato)
    else if Text.Contains(buttonId, "onion") then Some(Onion)
    else None
  }

  /** Crop c has a history of n prices, each in the crop's band. */
  ghost predicate CropHistoryOk(history: map<Crop, seq<int>>, c: Crop, n: nat)
  {
    c in history && |history[c]| == n && AllInBand(c, history[c])
  }

  /** One history per crop, all of one length, every price in its band.
      The crops are listed one by one, which keeps the solver away from
      quantifying over crops. */
  ghost predicate HistoriesWellformed(history: map<Crop, seq<int>>)
  {
    Lettuce in history &&
    CropHistoryOk(history, Lettuce, |history[Lettuce]|) &&
    CropHistoryOk(history, Carrot, |history[Lettuce]|) &&
    CropHistoryOk(history, Tomato, |history[Lettuce]|) &&
    CropHistoryOk(history, Onion, |history[Lettuce]|)
  }

  /** The per-crop reading of HistoriesWellformed. */
  lemma HistoryOfEveryCrop(history: map<Crop, seq<int>>)
    requires HistoriesWellformed(history)
    ensures forall c :: c in history && |history[c]| == |history[Lettuce]| && AllInBand(c, history[c])
  {
    forall c ensures c in history && |history[c]| == |history[Lettuce]| && AllInBand(c, history[c]) {
      assert CropHistoryOk(history, c, |history[Lettuce]|) by {
        match c
        case Lettuce =>
        case Carrot =>
        case Tomato =>
        case Onion =>
      }
    }
  }

  /** Appending one in-band price to every history keeps the histories well formed. */
  lemma AppendRoundWellformed(history: map<Crop, seq<int>>, prices: Crop -> int)
    requires HistoriesWellformed(history)
    requires forall c :: InBand(c, prices(c))
    ensures HistoriesWellformed(AppendRound(history, prices))
  {
    var after := AppendRound(history, prices);
    assert InBand(Lettuce, prices(Lettuce)) && InBand(Carrot, prices(Carrot));
    assert InBand(Tomato, prices(Tomato)) && InBand(Onion, prices(Onion));
    assert after[Lettuce] == history[Lettuce] + [prices(Lettuce)];
    assert after[Carrot] == history[Carrot] + [prices(Carrot)];
    assert after[Tomato] == history[Tomato] + [prices(Tomato)];
    assert after[Onion] == history[Onion] + [prices(Onion)];
  }

  /** The prices of the i-th round of history generation. */
  function RoundPrices(draw: (nat, Crop) -> real, i: nat): Crop -> int
  {
    (c: Crop) => GenerateMonthlyPrice(c, draw(i, c))
  }

  /** The prices of a month advance, one draw per crop. */
  function MonthPrices(draw: Crop -> real): Crop -> int
  {
    (c: Crop) => GenerateMonthlyPrice(c, draw(c))
  }

  /** Every round draws an in-band price for every crop. */
  lemma RoundPricesInBand(draw: (nat, Crop) -> real, i: nat)
    ensures forall c :: InBand(c, RoundPrices(draw, i)(c))
  {
    forall c ensures InBand(c, RoundPrices(draw, i)(c)) {
      assert RoundPrices(draw, i)(c) == GenerateMonthlyPrice(c, draw(i, c));
    }
  }

  /** A month advance draws an in-band price for every crop. */
  lemma MonthPricesInBand(draw: Crop -> real)
    ensures forall c :: InBand(c, MonthPrices(draw)(c))
  {
    forall c ensures InBand(c, MonthPrices(draw)(c)) {
      assert MonthPrices(draw)(c) == GenerateMonthlyPrice(c, draw(c));
    }
  }

  /** Crop c's history is its history in `start` followed by its first n draws. */
  ghost predicate CropDrawn(start: map<Crop, seq<int>>, history: map<Crop, seq<int>>, draw: (nat, Crop) -> real, n: nat, c: Crop)
  {
    c in start && c in history && history[c] == start[c] + PricesDrawn(c, draw, n)
  }

  /** `history` is `start` with each crop's first n draws appended. */
  ghost predicate DrawnSoFar(start: map<Crop, seq<int>>, history: map<Crop, seq<int>>, draw: (nat, Crop) -> real, n: nat)
  {
    CropDrawn(start, history, draw, n, Lettuce) && CropDrawn(start, history, draw, n, Carrot) &&
    CropDrawn(start, history, draw, n, Tomato) && CropDrawn(start, history, draw, n, Onion)
  }

  /** Round n of generation extends crop c's first n draws to its first n + 1. */
  lemma {:induction false} CropDrawnStep(start: map<Crop, seq<int>>, history: map<Crop, seq<int>>, draw: (nat, Crop) -> real, n: nat, c: Crop)
    requires CropDrawn(start, history, draw, n, c)
    ensures CropDrawn(start, AppendRound(history, RoundPrices(draw, n)), draw, n + 1, c)
  {
    var p := GenerateMonthlyPrice(c, draw(n, c));
    assert AppendRound(history, RoundPrices(draw, n))[c] == history[c] + [p];
    assert (start[c] + PricesDrawn(c, draw, n)) + [p] == start[c] + (PricesDrawn(c, draw, n) + [p]);
  }

  /** One round of generation takes the first n draws of every crop to the first n + 1. */
  lemma DrawnSoFarStep(start: map<Crop, seq<int>>, history: map<Crop, seq<int>>, draw: (nat, Crop) -> real, n: nat)
    requires DrawnSoFar(start, history, draw, n)
    ensures DrawnSoFar(start, AppendRound(history, RoundPrices(draw, n)), draw, n + 1)
  {
    CropDrawnStep(start, history, draw, n, Lettuce);
    CropDrawnStep(start, history, draw, n, Carrot);
    CropDrawnStep(start, history, draw, n, Tomato);
    CropDrawnStep(start, history, draw, n, Onion);
  }

  /** The per-crop reading of DrawnSoFar. */
  lemma DrawnOfCrop(start: map<Crop, seq<int>>, history: map<Crop, seq<int>>, draw: (nat, Crop) -> real, n: nat, c: Crop)
    requires DrawnSoFar(start, history, draw, n)
    ensures CropDrawn(start, history, draw, n, c)
  {
  }

  /** Generation from empty histories leaves exactly the drawn prices. */
  lemma DrawnFromEmpty(empty: map<Crop, seq<int>>, history: map<Crop, seq<int>>, draw: (nat, Crop) -> real, n: nat)
    requires empty == EmptyHistories
    requires DrawnSoFar(empty, history, draw, n)
    ensures forall c :: c in history && history[c] == PricesDrawn(c, draw, n)
  {
    forall c ensures c in history && history[c] == PricesDrawn(c, draw, n) {
      DrawnOfCrop(empty, history, draw, n, c);
      assert empty[c] == [];
    }
  }

  /** Price moves that have happened by a month: one for each odd month
      from 3 up to the last month played (the advance to month 13 moves none). */
  function FluctuationsSoFar(month: int): nat
    requires month >= 1
  {
    (if month <= GameDurationMonths then month - 1 else GameDurationMonths - 1) / 2
  }

  /** A month advance within the game adds one price move exactly when it
      lands on an odd month. */
  lemma FluctuationsStep(month: int)
    requires 1 <= month < GameDurationMonths
    ensures FluctuationsSoFar(month + 1) ==
      FluctuationsSoFar(month) + (if (month + 1) % 2 == 1 then 1 else 0)
  {
  }

  /** `gameData` together with the `selectedSeed`/`isHarvesting` globals. */
  class Session {
    var money: int
    var month: int
    var season: string
    var history: map<Crop, seq<int>>
    var plots: array<Option<Plot>>
    var selectedSeed: Option<Crop>
    var isHarvesting: bool
    /** The month at which the plot grid was last drawn. A plot is offered
        for harvest through its 'ready-to-harvest' class, which reflects this
        month; the advance that ends the game does not redraw the grid. */
    var renderedMonth: int

    /** Invariants that hold from the moment the state is created. */
    ghost predicate Wellformed()
      reads this, plots
    {
      HistoriesWellformed(history) && Settled()
    }

    /** The part of Wellformed() about everything but the price histories. */
    ghost predicate Settled()
      reads this`money, this`month, this`renderedMonth, this`season, this`plots, this`selectedSeed, this`isHarvesting, plots
    {
      plots.Length == PlotCount &&
      money >= 0 &&
      1 <= month <= GameDurationMonths + 1 &&
      (renderedMonth == month ||
       (month == GameDurationMonths + 1 && renderedMonth == GameDurationMonths)) &&
      season == SeasonOf(renderedMonth) &&
      !(selectedSeed.Some? && isHarvesting) &&
      PlantedBy(plots, month)
    }

    /** Invariants once the price history has been generated. */
    ghost predicate Valid()
      reads this, plots
    {
      Wellformed() &&
      |history[Lettuce]| == InitialRounds() + FluctuationsSoFar(month)
    }

    /** The initial `gameData` and mode globals, before the page has loaded:
        every price history is still empty. */
    constructor ()
      ensures Wellformed() && fresh(plots)
      ensures money == InitialMoney && month == 1 && season == "春"
      ensures selectedSeed == None && !isHarvesting
      ensures forall i :: 0 <= i < plots.Length ==> plots[i] == None
      ensures history == EmptyHistories
    {
      money := InitialMoney;
      month := 1;
      season := "春";
      history := EmptyHistories;
      plots := new Option<Plot>[PlotCount](_ => None);
      selectedSeed := None;
      isHarvesting := false;
      renderedMonth := 1;
    }

    /** The `DOMContentLoaded` handler: `generateInitialHistory` runs on the
        fresh `gameData`, before any event handler is installed. */
    method LoadPage(draw: (nat, Crop) -> real)
      requires Wellformed() && month == 1 && history == EmptyHistories
      modifies this`history
      ensures Valid()
      ensures forall c :: c in history && history[c] == PricesDrawn(c, draw, InitialRounds())
    {
      GenerateInitialHistory(draw);
      DrawnFromEmpty(EmptyHistories, history, draw, InitialRounds());
    }

    /** `getCurrentPrice`: the last price of the crop's history. */
    function CurrentPrice(c: Crop): (p: int)
      reads this, plots
      requires Valid()
      ensures c in history && |history[c]| > 0
      ensures InBand(c, p)
      ensures p == history[c][|history[c]| - 1]
    {
      HistoryOfEveryCrop(history);
      history[c][|history[c]| - 1]
    }

    /** `labels` of `getChartData`: one label per point of the history. */
    function Labels(): (labels: seq<string>)
      reads this, plots
      requires Valid()
      ensures forall c :: c in history && |labels| == |history[c]|
      ensures labels[|labels| - 1] == "今"
    {
      HistoryOfEveryCrop(history);
      ChartLabelMeaning(|history[Lettuce]|, LabelSuffix, |history[Lettuce]| - 1);
      ChartLabels(|history[Lettuce]|, LabelSuffix)
    }

    /** The inner loop shared by history generation and the month advance:
        one price per crop, pushed in key order. */
    method PushRound(prices: Crop -> int)
      requires HistoriesWellformed(history)
      requires forall c :: InBand(c, prices(c))
      modifies this`history
      ensures HistoriesWellformed(history)
      ensures history == AppendRound(old(history), prices)
    {
      var before := history;
      var updated := before;
      var j := 0;
      while j < |AllCrops|
        invariant 0 <= j <= |AllCrops|
        invariant PartlyAppended(before, updated, prices, j)
      {
        var c := AllCrops[j];
        assert c in before by { AllCropsIndexed(j); }
        PartlyAppendedStep(before, updated, prices, j);
        updated := updated[c := updated[c] + [prices(c)]];
        j := j + 1;
      }
      PartlyAppendedDone(before, updated, prices);
      AppendRoundWellformed(before, prices);
      history := updated;
    }

    /** `generateInitialHistory`: seven rounds of one price per crop. */
    method GenerateInitialHistory(draw: (nat, Crop) -> real)
      requires HistoriesWellformed(history)
      modifies this`history
      ensures HistoriesWellformed(history)
      ensures DrawnSoFar(old(history), history, draw, InitialRounds())
    {
      ghost var start := history;
      var rounds := InitialRounds();
      var i := 0;
      while i < rounds
        invariant 0 <= i <= rounds
        invariant HistoriesWellformed(history)
        invariant DrawnSoFar(start, history, draw, i)
      {
        GenerateRound(draw, i, start);
        i := i + 1;
      }
    }

    /** One pass of the inner loop of `generateInitialHistory`: round i
        draws and pushes one price per crop. */
    method GenerateRound(draw: (nat, Crop) -> real, i: nat, ghost start: map<Crop, seq<int>>)
      requires HistoriesWellformed(history) && DrawnSoFar(start, history, draw, i)
      modifies this`history
      ensures HistoriesWellformed(history) && DrawnSoFar(start, history, draw, i + 1)
    {
      var prices := RoundPrices(draw, i);
      RoundPricesInBand(draw, i);
      ghost var prev := history;
      PushRound(prices);
      DrawnSoFarStep(start, prev, draw, i);
    }

    /** `resetSelection`: back to idle. */
    method ResetSelection()
      requires Valid()
      modifies this`selectedSeed, this`isHarvesting
      ensures Valid()
      ensures selectedSeed == None && !isHarvesting
    {
      selectedSeed := None;
      isHarvesting := false;
    }

    /** `handleItemSlotClick`: clicking the selected seed returns to idle,
        any other seed button selects that seed and leaves harvest mode. */
    method ItemSlotClick(buttonId: string)
      requires Valid()
      modifies this`selectedSeed, this`isHarvesting
      ensures Valid()
      ensures !Text.StartsWith(buttonId, SeedButtonPrefix) ==>
        selectedSeed == old(selectedSeed) && isHarvesting == old(isHarvesting)
      ensures Text.StartsWith(buttonId, SeedButtonPrefix) ==>
        !isHarvesting &&
        selectedSeed == (if old(selectedSeed) == CropFromButtonId(buttonId) then None
                         else CropFromButtonId(buttonId))
    {
      if !Text.StartsWith(buttonId, SeedButtonPrefix) {
        return;
      }
      var crop := CropFromButtonId(buttonId);
      if selectedSeed == crop {
        ResetSelection();
      } else {
        ResetSelection();
        selectedSeed := crop;
      }
    }

    /** `handleHarvestClick`: toggles harvest mode and drops any seed. */
    method HarvestClick()
      requires Valid()
      modifies this`selectedSeed, this`isHarvesting
      ensures Valid()
      ensures selectedSeed == None && isHarvesting == !old(isHarvesting)
    {
      if isHarvesting {
        ResetSelection();
      } else {
        ResetSelection();
        isHarvesting := true;
      }
    }

    /** `handlePlotClick` on plot `index`: plant the selected seed, paying
        its current price, or harvest a plot shown as ready, earning the
        crop's fixed sell price. */
    method PlotClick(index: nat) returns (outcome: Outcome)
      requires Valid() && index < PlotCount
      modifies this, plots
      ensures Valid() && plots == old(plots)
      ensures month == old(month) && history == old(history)
      ensures selectedSeed == old(selectedSeed) && isHarvesting == old(isHarvesting)
      ensures outcome != Planted && outcome != Harvested ==>
        money == old(money) && plots[..] == old(plots[..]) &&
        season == old(season) && renderedMonth == old(renderedMonth)
      ensures outcome != PriceDataError
      // planting
      ensures outcome == Planted <==>
        selectedSeed.Some? && old(plots[index]).None? &&
        old(money) >= old(CurrentPrice(selectedSeed.value))
      ensures outcome == InsufficientFunds <==>
        selectedSeed.Some? && old(plots[index]).None? &&
        old(money) < old(CurrentPrice(selectedSeed.value))
      ensures outcome == Planted ==>
        money == old(money) - old(CurrentPrice(selectedSeed.value)) &&
        plots[..] == old(plots[..])[index := Some(Plot(selectedSeed.value, month))] &&
        season == SeasonOf(month) && renderedMonth == month
      // harvesting
      ensures outcome == Harvested <==>
        selectedSeed.None? && isHarvesting && old(plots[index]).Some? &&
        Ready(old(plots[index]).value, old(renderedMonth))
      ensures outcome == Harvested ==>
        Ready(old(plots[index]).value, month) &&
        money == old(money) + FixedSellPrice(old(plots[index]).value.crop) &&
        plots[..] == old(plots[..])[index := None] &&
        season == SeasonOf(month) && renderedMonth == month
      ensures old(renderedMonth) == month ==>
        (outcome == Harvested <==>
           selectedSeed.None? && isHarvesting && old(plots[index]).Some? &&
           Ready(old(plots[index]).value, month))
    {
      var plot := plots[index];
      if selectedSeed.Some? {
        if plot.Some? {
          return Ignored;
        }
        var seedPrice := CurrentPrice(selectedSeed.value);
        if money < seedPrice {
          return InsufficientFunds;
        }
        money := money - seedPrice;
        plots[index] := Some(Plot(selectedSeed.value, month));
        season := SeasonOf(month);
        renderedMonth := month;
        return Planted;
      } else if isHarvesting {
        if plot.None? || !Ready(plot.value, renderedMonth) {
          return Ignored;
        }
        ReadyPersists(plot.value, renderedMonth, month);
        money := money + FixedSellPrice(plot.value.crop);
        plots[index] := None;
        season := SeasonOf(month);
        renderedMonth := month;
        return Harvested;
      }
      return Ignored;
    }

    /** `handleNextMonthClick`: after month 12 it only shows the result; the
        advance into month 13 shows the result too and changes nothing but the
        month; any other advance moves prices on odd months and puts the
        player into harvest mode. */
    method NextMonth(draw: Crop -> real) returns (finished: bool)
      requires Valid()
      modifies this`month, this`history, this`season, this`renderedMonth, this`selectedSeed, this`isHarvesting
      ensures Valid()
      ensures finished <==> old(month) >= GameDurationMonths
      ensures month == if old(month) > GameDurationMonths then old(month) else old(month) + 1
      ensures finished ==>
        history == old(history) && season == old(season) && renderedMonth == old(renderedMonth) &&
        selectedSeed == old(selectedSeed) && isHarvesting == old(isHarvesting)
      ensures !finished ==>
        history == (if month % 2 == 1 then AppendRound(old(history), MonthPrices(draw))
                    else old(history)) &&
        selectedSeed == None && isHarvesting &&
        season == SeasonOf(month) && renderedMonth == month
    {
      if month > GameDurationMonths {
        return true;
      }
      if month + 1 > GameDurationMonths {
        month := month + 1;
        return true;
      }
      AdvanceMonth(draw);
      return false;
    }

    /** The advance to a month within the game. */
    method AdvanceMonth(draw: Crop -> real)
      requires Valid() && month < GameDurationMonths
      modifies this`month, this`history, this`season, this`renderedMonth, this`selectedSeed, this`isHarvesting
      ensures Valid()
      ensures month == old(month) + 1
      ensures history == (if month % 2 == 1 then AppendRound(old(history), MonthPrices(draw))
                          else old(history))
      ensures selectedSeed == None && isHarvesting
      ensures season == SeasonOf(month) && renderedMonth == month
    {
      PlantedByLater(plots, month, month + 1);
      month := month + 1;
      FluctuationsStep(month - 1);
      var shouldFluctuate := month % 2 != 0;
      if shouldFluctuate {
        var prices := MonthPrices(draw);
        MonthPricesInBand(draw);
        PushRound(prices);
      }
      assert HistoriesWellformed(history);
      assert |history[Lettuce]| == InitialRounds() + FluctuationsSoFar(month);
      selectedSeed := None;
      isHarvesting := true;
      season := SeasonOf(month);
      renderedMonth := month;
    }
  }
}
