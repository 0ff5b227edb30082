// Entities shared by both versions of the game: the four crops, a plot of
// the 10 x 10 farm, readiness of a planted plot, the season shown for a
// month and the labels of the price chart's time axis.
module Farm {
  import Text

  datatype Option<T> = None | Some(value: T)

  /** The crop ids, in the key order of `gameData.priceHistory`. */
  datatype Crop = Lettuce | Carrot | Tomato | Onion

  const AllCrops: seq<Crop> := [Lettuce, Carrot, Tomato, Onion]

  /** Position of a crop in the order `for ... in` visits the history keys. */
  function Index(c: Crop): nat
  {
    match c
    case Lettuce => 0
    case Carrot => 1
    case Tomato => 2
    case Onion => 3
  }

  /** `AllCrops` lists every crop once, at its index. */
  lemma AllCropsIndexed(j: nat)
    requires j < |AllCrops|
    ensures Index(AllCrops[j]) == j
  {
  }

  const FarmSize := 10
  /** `FARM_SIZE * FARM_SIZE` slots of `gameData.farmPlots`. */
  const PlotCount := FarmSize * FarmSize

  /** `PRICE_BASE[c].seedPrice`; both versions use the same table. */
  function SeedPrice(c: Crop): nat
  {
    match c
    case Lettuce => 50
    case Carrot => 100
    case Tomato => 120
    case Onion => 150
  }

  /** `PRICE_BASE[c].growTime` in months; both versions use the same table. */
  function GrowTime(c: Crop): nat
  {
    match c
    case Lettuce => 1
    case Carrot => 2
    case Tomato => 3
    case Onion => 4
  }

  /** An occupied slot of `farmPlots`: `{cropId, plantedMonth}`. */
  datatype Plot = Plot(crop: Crop, plantedMonth: int)

  /** `remainingMonths` as displayed under a growing crop: nothing is left
      exactly when the crop is ready. */
  function Remaining(p: Plot, month: int): (r: int)
    ensures r <= 0 <==> Ready(p, month)
  {
    p.plantedMonth + GrowTime(p.crop) - month
  }

  /** A planted plot can be harvested once its growing time has elapsed;
      every crop grows for at least a month, so never in its planting month. */
  predicate Ready(p: Plot, month: int)
    ensures Ready(p, month) ==> month > p.plantedMonth
  {
    month >= p.plantedMonth + GrowTime(p.crop)
  }

  /** Once ready, a plot stays ready as months pass. */
  lemma ReadyPersists(p: Plot, month: int, later: int)
    requires Ready(p, month) && month <= later
    ensures Ready(p, later)
  {
  }

  /** `priceHistory` as `gameData` is created: an empty list per crop. */
  const EmptyHistories: map<Crop, seq<int>> := map[Lettuce := [], Carrot := [], Tomato := [], Onion := []]

  /** One pass of the `for (const cropId in priceHistory)` loop that pushes
      a price: every crop's history with that crop's new price appended. */
  function AppendRound(history: map<Crop, seq<int>>, prices: Crop -> int): (r: map<Crop, seq<int>>)
    ensures r.Keys == history.Keys
  {
    map c | c in history :: history[c] + [prices(c)]
  }

  /** The `for ... in` push loop after its first j crops: those crops have
      their new price appended, the others are as they were. */
  ghost predicate PartlyAppended(before: map<Crop, seq<int>>, updated: map<Crop, seq<int>>, prices: Crop -> int, j: nat)
  {
    updated.Keys == before.Keys &&
    forall c | c in before :: updated[c] == (if Index(c) < j then before[c] + [prices(c)] else before[c])
  }

  /** Pushing the price of the j-th crop extends the loop by one crop. */
  lemma PartlyAppendedStep(before: map<Crop, seq<int>>, updated: map<Crop, seq<int>>, prices: Crop -> int, j: nat)
    requires j < |AllCrops| && AllCrops[j] in before
    requires PartlyAppended(before, updated, prices, j)
    ensures AllCrops[j] in updated
    ensures PartlyAppended(before, updated[AllCrops[j] := updated[AllCrops[j]] + [prices(AllCrops[j])]], prices, j + 1)
  {
    AllCropsIndexed(j);
  }

  /** Once every crop has been visited the loop has appended the whole round. */
  lemma PartlyAppendedDone(before: map<Crop, seq<int>>, updated: map<Crop, seq<int>>, prices: Crop -> int)
    requires PartlyAppended(before, updated, prices, |AllCrops|)
    ensures updated == AppendRound(before, prices)
  {
  }

  /** Every crop on the farm was planted during the game, by `month`. */
  ghost predicate PlantedBy(plots: array<Option<Plot>>, month: int)
    reads plots
  {
    forall i :: 0 <= i < plots.Length && plots[i].Some? ==> 1 <= plots[i].value.plantedMonth <= month
  }

  /** Planting dates stay in the past as the months advance. */
  lemma PlantedByLater(plots: array<Option<Plot>>, month: int, later: int)
    requires PlantedBy(plots, month) && month <= later
    ensures PlantedBy(plots, later)
  {
  }

  /** Plot outcomes; the alerts of the source become `InsufficientFunds`
      and `PriceDataError`, silently ignored clicks become `Ignored`. */
  datatype Outcome = Planted | Harvested | InsufficientFunds | PriceDataError | Ignored

  /** The `seasons` table of `updateInfoPanel`. */
  const SeasonTable: seq<string> :=
    ["春", "春", "春", "夏", "夏", "夏", "秋", "秋", "秋", "冬", "冬", "冬"]

  const SeasonNames: seq<string> := ["春", "夏", "秋", "冬"]

  /** `seasons[(month - 1) % 12]`; months start at 1, so the index is never
      negative. Three months per season, in the order spring, summer,
      autumn, winter. */
  function SeasonOf(month: int): (s: string)
    requires month >= 1
    ensures s == SeasonNames[((month - 1) % 12) / 3]
  {
    SeasonTableByQuarter((month - 1) % 12);
    SeasonTable[(month - 1) % 12]
  }

  /** Entry k of the twelve-month table is the season of quarter k / 3. */
  lemma SeasonTableByQuarter(k: int)
    requires 0 <= k < 12
    ensures SeasonTable[k] == SeasonNames[k / 3]
  {
    if k < 3 {
    } else if k < 6 {
    } else if k < 9 {
    } else {
    }
  }

  /** The seasons cycle every twelve months. */
  lemma {:induction false} SeasonRepeatsYearly(month: int)
    requires month >= 1
    ensures SeasonOf(month + 12) == SeasonOf(month)
  {
    assert (month + 12 - 1) % 12 == (month - 1) % 12;
  }

  /** Months elapsed since the i-th of n chart points: two per point, since
      prices move every other month. */
  function MonthsAgo(n: nat): (r: seq<nat>)
    ensures |r| == n
    ensures n > 0 ==> r[n - 1] == 0
    ensures forall i :: 0 <= i < n - 1 ==> r[i] == r[i + 1] + 2
  {
    seq(n, i requires 0 <= i < n => (n - 1 - i) * 2)
  }

  /** One label: '今' for the latest point, else the month count in
      decimal followed by the suffix, a count that reads back unchanged. */
  function LabelText(monthsAgo: nat, suffix: string): (r: string)
    ensures r == "今" <==> monthsAgo == 0
    ensures monthsAgo > 0 ==>
      |r| > |suffix| && r[|r| - |suffix|..] == suffix &&
      (forall i :: 0 <= i < |r| - |suffix| ==> Text.IsDigit(r[i])) &&
      Text.ParseNat(r[..|r| - |suffix|]) == monthsAgo
  {
    if monthsAgo == 0 then "今"
    else
      var digits := Text.NatToString(monthsAgo);
      Text.ParseNatToString(monthsAgo);
      assert (digits + suffix)[..|digits|] == digits;
      assert !Text.IsDigit('今');
      assert (digits + suffix)[0] != '今';
      digits + suffix
  }

  /** The `labels` of `getChartData` for a history of n points. */
  function ChartLabels(n: nat, suffix: string): (labels: seq<string>)
    ensures |labels| == n
  {
    var ago := MonthsAgo(n);
    seq(n, i requires 0 <= i < n => LabelText(ago[i], suffix))
  }

  /** With a non-empty suffix only the last label reads '今', and every other
      label spells out, in decimal, twice its distance from the last point. */
  lemma ChartLabelMeaning(n: nat, suffix: string, i: nat)
    requires 0 < |suffix| && i < n
    ensures ChartLabels(n, suffix)[i] == "今" <==> i == n - 1
    ensures i < n - 1 ==>
      ChartLabels(n, suffix)[i] == Text.NatToString((n - 1 - i) * 2) + suffix &&
      Text.ParseNat(Text.NatToString((n - 1 - i) * 2)) == (n - 1 - i) * 2
  {
    if i < n - 1 {
      var m := (n - 1 - i) * 2;
      var s := Text.NatToString(m);
      assert |s + suffix| >= 2;
      Text.ParseNatToString(m);
    }
  }
}
