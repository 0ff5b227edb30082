// The game state of GAME/GAME.js: seeds cost a fixed price, a harvest pays
// the crop's latest market price, prices move around a per-crop base price,
// and the months run on without end.
module Game {
  import opened Farm
  import opened Pricing
  import Text

  const InitialMoney := 1000
  /** Past prices generated before the first month; one more is the current price. */
  const PastHistoryCount := 6
  const SeedButtonPrefix := "seed-button"
  /** Suffix of the chart labels, "<n> months ago". */
  const LabelSuffix := "ヶ月まえ"

  /** `PRICE_BASE[c].basePrice`, the anchor of the price walk. */
  function BasePrice(c: Crop): nat
  {
    match c
    case Lettuce => 160
    case Carrot => 280
    case Tomato => 450
    case Onion => 550
  }

  /** Lettuce's asymmetric change-rate band. */
  const LettuceMinVolatility: real := -0.5
  const LettuceMaxVolatility: real := 0.35

  /** `PRICE_BASE[c].volatility` of the symmetric crops. */
  function Volatility(c: Crop): real
    requires c != Lettuce
  {
    match c
    case Carrot => 0.1
    case Tomato => 0.35
    case Onion => 0.1
  }

  /** The change rate drawn from `u = Math.random()`: for a draw in [0, 1)
      lettuce moves within [-50%, +35%), the others within ±volatility. */
  function ChangeRate(c: Crop, u: real): (r: real)
    ensures 0.0 <= u < 1.0 && c == Lettuce ==> LettuceMinVolatility <= r < LettuceMaxVolatility
    ensures 0.0 <= u < 1.0 && c != Lettuce ==> -Volatility(c) <= r < Volatility(c)
  {
    if c == Lettuce then u * (LettuceMaxVolatility - LettuceMinVolatility) + LettuceMinVolatility
    else u * 2.0 * Volatility(c) - Volatility(c)
  }

  /** `basePrice * (1 + changeRate)`: this version anchors the walk on the
      base price, and a draw in [0, 1) lands strictly inside the band. */
  function RawPrice(c: Crop, u: real): (raw: real)
    ensures 0.0 <= u < 1.0 ==> PriceFloor(c) as real <= raw < PriceCeiling(c) as real
  {
    BasePrice(c) as real * (1.0 + ChangeRate(c, u))
  }

  /** The lowest price: ten more than the seed price, so a harvest always
      earns more than the seed cost. */
  function PriceFloor(c: Crop): (floor: int)
    ensures floor > SeedPrice(c)
  {
    SeedPrice(c) + 10
  }

  /** The highest price: twice the base price, above the floor, so the
      band is never empty. */
  function PriceCeiling(c: Crop): (ceiling: int)
    ensures ceiling > BasePrice(c) && ceiling > PriceFloor(c)
  {
    BasePrice(c) * 2
  }

  /** The band every generated price lies in. */
  predicate InBand(c: Crop, p: int)
  {
    PriceFloor(c) <= p <= PriceCeiling(c)
  }

  predicate AllInBand(c: Crop, prices: seq<int>)
  {
    forall k :: 0 <= k < |prices| ==> InBand(c, prices[k])
  }

  /** `generateMonthlyPrice(cropId)`, given the perturbed price
      `basePrice * (1 + changeRate)` of the month's draw (see RawPrice): raise
      it to the floor, lower it to the ceiling, and only then round it. */
  function GenerateMonthlyPrice(c: Crop, raw: real): (p: int)
    ensures InBand(c, p)
  {
    var raised := if raw < PriceFloor(c) as real then PriceFloor(c) as real else raw;
    var capped := if raised > PriceCeiling(c) as real then PriceCeiling(c) as real else raised;
    JsRoundOfInteger(PriceFloor(c));
    JsRoundOfInteger(PriceCeiling(c));
    JsRoundMonotone(PriceFloor(c) as real, capped);
    JsRoundMonotone(capped, PriceCeiling(c) as real);
    JsRound(capped)
  }

  /** Rounding last is the same as clamping the rounded raw price, so an
      integer raw price is modelled exactly. */
  lemma GenerateMonthlyPriceIsClamp(c: Crop, raw: real)
    ensures GenerateMonthlyPrice(c, raw) == Clamp(JsRound(raw), PriceFloor(c), PriceCeiling(c))
  {
    RoundClampCommute(raw, PriceFloor(c), PriceCeiling(c));
  }

  /** For a draw in [0, 1) the perturbed price already lies inside the band:
      neither the floor nor the ceiling of this version ever takes effect. */
  lemma ClampNeverBinds(c: Crop, u: real)
    requires 0.0 <= u < 1.0
    ensures InBand(c, JsRound(RawPrice(c, u)))
    ensures GenerateMonthlyPrice(c, RawPrice(c, u)) == JsRound(RawPrice(c, u))
  {
    var raw := RawPrice(c, u);
    JsRoundOfInteger(PriceFloor(c));
    JsRoundOfInteger(PriceCeiling(c));
    JsRoundMonotone(PriceFloor(c) as real, raw);
    JsRoundMonotone(raw, PriceCeiling(c) as real);
  }

  /** The first n prices drawn for crop c, the i-th from the perturbed price `draw(i, c)`. */
  function PricesDrawn(c: Crop, draw: (nat, Crop) -> real, n: nat): (prices: seq<int>)
    ensures |prices| == n && AllInBand(c, prices)
  {
    if n == 0 then [] else PricesDrawn(c, draw, n - 1) + [GenerateMonthlyPrice(c, draw(n - 1, c))]
  }

  /** The substring each seed button id is searched for, in search order. */
  function ButtonKey(c: Crop): string
  {
    match c
    case Lettuce => "letus"
    case Carrot => "carot"
    case Tomato => "tomato"
    case Onion => "onion"
  }

  /** `getCropIdFromSeedButtonId`: the first crop, in search order, whose key
      occurs in the button id, or none. */
  function CropFromButtonId(buttonId: string): (r: Option<Crop>)
    ensures r.Some? ==>
      Text.Contains(buttonId, ButtonKey(r.value)) &&
      (forall d :: Index(d) < Index(r.value) ==> !Text.Contains(buttonId, ButtonKey(d)))
    ensures r.None? ==> forall d :: !Text.Contains(buttonId, ButtonKey(d))
  {
    if Text.Contains(buttonId, "letus") then Some(Lettuce)
    else if Text.Contains(buttonId, "carot") then Some(Carrot)
    else if Text.Contains(buttonId, "tomato") then Some(Tomato)
    else if Text.Contains(buttonId, "onion") then Some(Onion)
    else None
  }

  /** Crop c has a history of n prices, each in the crop's band. */
  ghost predicate CropHistoryOk(history: map<Crop, seq<int>>, c: Crop, n: nat)
  {
    c in history && |history[c]| == n && AllInBand(c, history[c])
  }

  /** One history per crop, all of one length, every price in its band.
      The crops are listed one by one, which keeps the solver away from
      quantifying over crops. */
  ghost predicate HistoriesWellformed(history: map<Crop, seq<int>>)
  {
    Lettuce in history &&
    CropHistoryOk(history, Lettuce, |history[Lettuce]|) &&
    CropHistoryOk(history, Carrot, |history[Lettuce]|) &&
    CropHistoryOk(history, Tomato, |history[Lettuce]|) &&
    CropHistoryOk(history, Onion, |history[Lettuce]|)
  }

  /** The per-crop reading of HistoriesWellformed. */
  lemma HistoryOfEveryCrop(history: map<Crop, seq<int>>)
    requires HistoriesWellformed(history)
    ensures forall c :: c in history && |history[c]| == |history[Lettuce]| && AllInBand(c, history[c])
  {
    forall c ensures c in history && |history[c]| == |history[Lettuce]| && AllInBand(c, history[c]) {
      assert CropHistoryOk(history, c, |history[Lettuce]|) by {
        match c
        case Lettuce =>
        case Carrot =>
        case Tomato =>
        case Onion =>
      }
    }
  }

  /** Appending one in-band price to every history keeps the histories well formed. */
  lemma AppendRoundWellformed(history: map<Crop, seq<int>>, prices: Crop -> int)
    requires HistoriesWellformed(history)
    requires forall c :: InBand(c, prices(c))
    ensures HistoriesWellformed(AppendRound(history, prices))
  {
    var after := AppendRound(history, prices);
    assert InBand(Lettuce, prices(Lettuce)) && InBand(Carrot, prices(Carrot));
    assert InBand(Tomato, prices(Tomato)) && InBand(Onion, prices(Onion));
    assert after[Lettuce] == history[Lettuce] + [prices(Lettuce)];
    assert after[Carrot] == history[Carrot] + [prices(Carrot)];
    assert after[Tomato] == history[Tomato] + [prices(Tomato)];
    assert after[Onion] == history[Onion] + [prices(Onion)];
  }

  /** The prices of the i-th round of history generation. */
  function RoundPrices(draw: (nat, Crop) -> real, i: nat): Crop -> int
  {
    (c: Crop) => GenerateMonthlyPrice(c, draw(i, c))
  }

  /** The prices of a month advance, one draw per crop. */
  function MonthPrices(draw: Crop -> real): Crop -> int
  {
    (c: Crop) => GenerateMonthlyPrice(c, draw(c))
  }

  /** Every round draws an in-band price for every crop. */
  lemma RoundPricesInBand(draw: (nat, Crop) -> real, i: nat)
    ensures forall c :: InBand(c, RoundPrices(draw, i)(c))
  {
    forall c ensures InBand(c, RoundPrices(draw, i)(c)) {
      assert RoundPrices(draw, i)(c) == GenerateMonthlyPrice(c, draw(i, c));
    }
  }

  /** A month advance draws an in-band price for every crop. */
  lemma MonthPricesInBand(draw: Crop -> real)
    ensures forall c :: InBand(c, MonthPrices(draw)(c))
  {
    forall c ensures InBand(c, MonthPrices(draw)(c)) {
      assert MonthPrices(draw)(c) == GenerateMonthlyPrice(c, draw(c));
    }
  }

  /** Crop c's history is its history in `start` followed by its first n draws. */
  ghost predicate CropDrawn(start: map<Crop, seq<int>>, history: map<Crop, seq<int>>, draw: (nat, Crop) -> real, n: nat, c: Crop)
  {
    c in start && c in history && history[c] == start[c] + PricesDrawn(c, draw, n)
  }

  /** `history` is `start` with each crop's first n draws appended. */
  ghost predicate DrawnSoFar(start: map<Crop, seq<int>>, history: map<Crop, seq<int>>, draw: (nat, Crop) -> real, n: nat)
  {
    CropDrawn(start, history, draw, n, Lettuce) && CropDrawn(start, history, draw, n, Carrot) &&
    CropDrawn(start, history, draw, n, Tomato) && CropDrawn(start, history, draw, n, Onion)
  }

  /** Round n of generation extends crop c's first n draws to its first n + 1. */
  lemma {:induction false} CropDrawnStep(start: map<Crop, seq<int>>, history: map<Crop, seq<int>>, draw: (nat, Crop) -> real, n: nat, c: Crop)
    requires CropDrawn(start, history, draw, n, c)
    ensures CropDrawn(start, AppendRound(history, RoundPrices(draw, n)), draw, n + 1, c)
  {
    var p := GenerateMonthlyPrice(c, draw(n, c));
    assert AppendRound(history, RoundPrices(draw, n))[c] == history[c] + [p];
    assert (start[c] + PricesDrawn(c, draw, n)) + [p] == start[c] + (PricesDrawn(c, draw, n) + [p]);
  }

  /** One round of generation takes the first n draws of every crop to the first n + 1. */
  lemma DrawnSoFarStep(start: map<Crop, seq<int>>, history: map<Crop, seq<int>>, draw: (nat, Crop) -> real, n: nat)
    requires DrawnSoFar(start, history, draw, n)
    ensures DrawnSoFar(start, AppendRound(history, RoundPrices(draw, n)), draw, n + 1)
  {
    CropDrawnStep(start, history, draw, n, Lettuce);
    CropDrawnStep(start, history, draw, n, Carrot);
    CropDrawnStep(start, history, draw, n, Tomato);
    CropDrawnStep(start, history, draw, n, Onion);
  }

  /** No draws yet: every history is still the one generation started from. */
  lemma DrawnNothing(start: map<Crop, seq<int>>, draw: (nat, Crop) -> real)
    requires Lettuce in start && Carrot in start && Tomato in start && Onion in start
    ensures DrawnSoFar(start, start, draw, 0)
  {
    assert start[Lettuce] + [] == start[Lettuce];
    assert start[Carrot] + [] == start[Carrot];
    assert start[Tomato] + [] == start[Tomato];
    assert start[Onion] + [] == start[Onion];
  }

  /** The per-crop reading of DrawnSoFar. */
  lemma DrawnOfCrop(start: map<Crop, seq<int>>, history: map<Crop, seq<int>>, draw: (nat, Crop) -> real, n: nat, c: Crop)
    requires DrawnSoFar(start, history, draw, n)
    ensures CropDrawn(start, history, draw, n, c)
  {
  }

  /** DrawnSoFar read crop by crop. */
  lemma DrawnEveryCrop(start: map<Crop, seq<int>>, history: map<Crop, seq<int>>, draw: (nat, Crop) -> real, n: nat)
    requires DrawnSoFar(start, history, draw, n)
    ensures forall c :: c in start && c in history && history[c] == start[c] + PricesDrawn(c, draw, n)
  {
    forall c ensures c in start && c in history && history[c] == start[c] + PricesDrawn(c, draw, n) {
      DrawnOfCrop(start, history, draw, n, c);
    }
  }

  /** `gameData` together with the `selectedSeed`/`isHarvesting` globals.
      Every change is followed by a redraw, so the 'ready-to-harvest' class
      of a plot always reflects the current month. */
  class Session {
    var money: int
    var month: int
    var season: string
    var history: map<Crop, seq<int>>
    var plots: array<Option<Plot>>
    var selectedSeed: Option<Crop>
    var isHarvesting: bool

    ghost predicate Valid()
      reads this, plots
    {
      HistoriesWellformed(history) && Settled()
    }

    /** The part of Valid() about everything but the price histories. */
    ghost predicate Settled()
      reads this`money, this`month, this`season, this`plots, this`selectedSeed, this`isHarvesting, plots
    {
      plots.Length == PlotCount &&
      money >= 0 &&
      month >= 1 &&
      season == SeasonOf(month) &&
      !(selectedSeed.Some? && isHarvesting) &&
      PlantedBy(plots, month)
    }

    /** The initial `gameData` and mode globals, before the page has loaded:
        every price history is still empty. */
    constructor ()
      ensures Valid() && fresh(plots)
      ensures money == InitialMoney && month == 1 && season == "春"
      ensures selectedSeed == None && !isHarvesting
      ensures forall i :: 0 <= i < plots.Length ==> plots[i] == None
      ensures history == EmptyHistories
    {
      money := InitialMoney;
      month := 1;
      season := "春";
      history := EmptyHistories;
      plots := new Option<Plot>[PlotCount](_ => None);
      selectedSeed := None;
      isHarvesting := false;
    }

    /** The history part of the `DOMContentLoaded` handler: six past rounds
        of one price per crop, then the round of the first month. */
    method LoadPage(draw: (nat, Crop) -> real)
      requires Valid()
      modifies this`history
      ensures Valid()
      ensures forall c ::
                c in old(history) && c in history &&
                history[c] == old(history)[c] + PricesDrawn(c, draw, PastHistoryCount + 1)
    {
      GenerateHistory(draw);
    }

    /** The two generation loops of the page load, on the histories alone. */
    method GenerateHistory(draw: (nat, Crop) -> real)
      requires HistoriesWellformed(history)
      modifies this`history
      ensures HistoriesWellformed(history)
      ensures forall c ::
                c in old(history) && c in history &&
                history[c] == old(history)[c] + PricesDrawn(c, draw, PastHistoryCount + 1)
    {
      ghost var start := history;
      GeneratePastRounds(draw);
      GenerateRound(draw, PastHistoryCount, start);
      DrawnEveryCrop(start, history, draw, PastHistoryCount + 1);
    }

    /** The `PAST_HISTORY_COUNT` loop of the page load: one round per past month. */
    method GeneratePastRounds(draw: (nat, Crop) -> real)
      requires HistoriesWellformed(history)
      modifies this`history
      ensures HistoriesWellformed(history)
      ensures DrawnSoFar(old(history), history, draw, PastHistoryCount)
    {
      ghost var start := history;
      DrawnNothing(start, draw);
      var i := 0;
      while i < PastHistoryCount
        invariant 0 <= i <= PastHistoryCount
        invariant HistoriesWellformed(history)
        invariant DrawnSoFar(start, history, draw, i)
      {
        GenerateRound(draw, i, start);
        i := i + 1;
      }
    }

    /** One pass of an inner `for (const cropId in priceHistory)` loop of
        the page load: round i draws and pushes one price per crop. */
    method GenerateRound(draw: (nat, Crop) -> real, i: nat, ghost start: map<Crop, seq<int>>)
      requires HistoriesWellformed(history) && DrawnSoFar(start, history, draw, i)
      modifies this`history
      ensures HistoriesWellformed(history) && DrawnSoFar(start, history, draw, i + 1)
    {
      var prices := RoundPrices(draw, i);
      RoundPricesInBand(draw, i);
      ghost var prev := history;
      PushRound(prices);
      DrawnSoFarStep(start, prev, draw, i);
    }

    /** The price a harvest pays: the last element of the crop's history,
        none while the history is empty. */
    function LatestPrice(c: Crop): (r: Option<int>)
      reads this, plots
      requires Valid()
      ensures c in history
      ensures r.None? <==> |history[c]| == 0
      ensures r.Some? ==> InBand(c, r.value) && r.value == history[c][|history[c]| - 1]
    {
      HistoryOfEveryCrop(history);
      if |history[c]| == 0 then None else Some(history[c][|history[c]| - 1])
    }

    /** `labels` of `getChartData`: one label per point of the history. */
    function Labels(): (labels: seq<string>)
      reads this, plots
      requires Valid()
      ensures forall c :: c in history && |labels| == |history[c]|
      ensures |labels| > 0 ==> labels[|labels| - 1] == "今"
    {
      HistoryOfEveryCrop(history);
      var n := |history[Lettuce]|;
      if n > 0 then ChartLabelMeaning(n, LabelSuffix, n - 1); ChartLabels(n, LabelSuffix)
      else ChartLabels(n, LabelSuffix)
    }

    /** The loop over `priceHistory` keys that pushes one price per crop. */
    method PushRound(prices: Crop -> int)
      requires HistoriesWellformed(history)
      requires forall c :: InBand(c, prices(c))
      modifies this`history
      ensures HistoriesWellformed(history)
      ensures history == AppendRound(old(history), prices)
    {
      var before := history;
      var updated := before;
      var j := 0;
      while j < |AllCrops|
        invariant 0 <= j <= |AllCrops|
        invariant PartlyAppended(before, updated, prices, j)
      {
        var c := AllCrops[j];
        assert c in before by { AllCropsIndexed(j); }
        PartlyAppendedStep(before, updated, prices, j);
        updated := updated[c := updated[c] + [prices(c)]];
        j := j + 1;
      }
      PartlyAppendedDone(before, updated, prices);
      AppendRoundWellformed(before, prices);
      history := updated;
    }

    /** `handleItemSlotClick`: clicking the selected seed deselects it and
        leaves harvest mode as it was; any other seed button selects that
        seed and leaves harvest mode. */
    method ItemSlotClick(buttonId: string)
      requires Valid()
      modifies this`selectedSeed, this`isHarvesting
      ensures Valid()
      ensures !Text.StartsWith(buttonId, SeedButtonPrefix) ==>
        selectedSeed == old(selectedSeed) && isHarvesting == old(isHarvesting)
      ensures Text.StartsWith(buttonId, SeedButtonPrefix) && old(selectedSeed) == CropFromButtonId(buttonId) ==>
        selectedSeed == None && isHarvesting == old(isHarvesting)
      ensures Text.StartsWith(buttonId, SeedButtonPrefix) && old(selectedSeed) != CropFromButtonId(buttonId) ==>
        selectedSeed == CropFromButtonId(buttonId) && !isHarvesting
    {
      if !Text.StartsWith(buttonId, SeedButtonPrefix) {
        return;
      }
      var crop := CropFromButtonId(buttonId);
      if selectedSeed == crop {
        selectedSeed := None;
      } else {
        selectedSeed := crop;
        isHarvesting := false;
      }
    }

    /** `handleHarvestClick`: drops any seed and toggles harvest mode. */
    method HarvestClick()
      requires Valid()
      modifies this`selectedSeed, this`isHarvesting
      ensures Valid()
      ensures selectedSeed == None && isHarvesting == !old(isHarvesting)
    {
      selectedSeed := None;
      if isHarvesting {
        isHarvesting := false;
      } else {
        isHarvesting := true;
      }
    }

    /** `handlePlotClick` on plot `index`: plant the selected seed, paying
        its fixed seed price, or harvest a ready plot, earning the crop's
        latest market price. */
    method PlotClick(index: nat) returns (outcome: Outcome)
      requires Valid() && index < PlotCount
      modifies this`money, this`season, plots
      ensures Valid()
      ensures season == old(season)
      ensures outcome != Planted && outcome != Harvested ==>
        money == old(money) && plots[..] == old(plots[..])
      // planting
      ensures outcome == Planted <==>
        selectedSeed.Some? && old(plots[index]).None? && old(money) >= SeedPrice(selectedSeed.value)
      ensures outcome == InsufficientFunds <==>
        selectedSeed.Some? && old(plots[index]).None? && old(money) < SeedPrice(selectedSeed.value)
      ensures outcome == Planted ==>
        money == old(money) - SeedPrice(selectedSeed.value) &&
        plots[..] == old(plots[..])[index := Some(Plot(selectedSeed.value, month))]
      // harvesting
      ensures outcome == Harvested <==>
        selectedSeed.None? && isHarvesting && old(plots[index]).Some? &&
        Ready(old(plots[index]).value, month) && |history[old(plots[index]).value.crop]| > 0
      ensures outcome == PriceDataError <==>
        selectedSeed.None? && isHarvesting && old(plots[index]).Some? &&
        Ready(old(plots[index]).value, month) && |history[old(plots[index]).value.crop]| == 0
      ensures outcome == Harvested ==>
        money == old(money) + LatestPrice(old(plots[index]).value.crop).value &&
        plots[..] == old(plots[..])[index := None]
    {
      var plot := plots[index];
      if selectedSeed.Some? {
        if plot.Some? {
          return Ignored;
        }
        var seedPrice := SeedPrice(selectedSeed.value);
        if money < seedPrice {
          return InsufficientFunds;
        }
        money := money - seedPrice;
        plots[index] := Some(Plot(selectedSeed.value, month));
        season := SeasonOf(month);
        return Planted;
      } else if isHarvesting {
        if plot.None? || !Ready(plot.value, month) {
          return Ignored;
        }
        var currentPrice := LatestPrice(plot.value.crop);
        if currentPrice.None? {
          return PriceDataError;
        }
        money := money + currentPrice.value;
        plots[index] := None;
        season := SeasonOf(month);
        return Harvested;
      }
      return Ignored;
    }

    /** The next-month click handler: one month on, a price move on odd
        months, and harvest mode switched on. */
    method NextMonth(draw: Crop -> real)
      requires Valid()
      modifies this`month, this`history, this`season, this`selectedSeed, this`isHarvesting
      ensures Valid()
      ensures month == old(month) + 1
      ensures history == (if month % 2 == 1 then AppendRound(old(history), MonthPrices(draw))
                          else old(history))
      ensures selectedSeed == None && isHarvesting
      ensures season == SeasonOf(month)
    {
      PlantedByLater(plots, month, month + 1);
      month := month + 1;
      var shouldFluctuate := month % 2 != 0;
      if shouldFluctuate {
        var prices := MonthPrices(draw);
        MonthPricesInBand(draw);
        PushRound(prices);
      }
      selectedSeed := None;
      isHarvesting := true;
      season := SeasonOf(month);
    }
  }
}
