/**
 * The rest-of-night planner: from the current forecast rows and the cutover
 * on-hand snapshot it allocates the nightly waste target across the catalog
 * by demand share and turns each SKU's remaining need into whole oven batches.
 */
module Planner {
  import opened Domain
  import opened JsMath

  /** One line of the plan (display-only fields such as name and oven temperature are omitted). */
  datatype PlanItem = PlanItem(sku: SkuId, onHand: int, forecast: real, allocWaste: int,
                               batchSize: int, ovenMinutes: int,
                               suggestUnits: int, batches: int, etaMinutes: int)

  datatype Plan = Plan(store: StoreId, date: Day, totalDemand: real, totalSuggest: int, items: seq<PlanItem>)

  const NO_SNAPSHOT: string := "No cutover snapshot found for this store/date"

  /** The midpoint of the waste window, rounded as `Math.round` does. */
  function WasteTarget(): (t: int)
    ensures WASTE_TARGET_MIN <= t <= WASTE_TARGET_MAX
    ensures t == 35
  {
    Round((WASTE_TARGET_MIN + WASTE_TARGET_MAX) as real / 2.0)
  }

  /** A SKU's demand: its forecast estimate, or 0 when the pair has no row yet. */
  function Demand(rows: Rows, store: StoreId, id: SkuId): (d: real)
    ensures (store, id) in rows ==> d == rows[(store, id)].ewma
    ensures (store, id) !in rows ==> d == 0.0
    ensures SaneRows(rows) ==> d >= 0.0
  {
    if (store, id) in rows then rows[(store, id)].ewma else 0.0
  }

  /** The sum of the demands of `skus`. */
  function TotalDemand(skus: seq<Sku>, rows: Rows, store: StoreId): (total: real)
    ensures SaneRows(rows) ==> total >= 0.0
  {
    if skus == [] then 0.0 else Demand(rows, store, skus[0].id) + TotalDemand(skus[1..], rows, store)
  }

  /** A SKU's share of the waste budget; uniform over `count` SKUs when there is no positive total demand. */
  function Share(demand: real, total: real, count: int): (share: real)
    requires count > 0
    ensures total > 0.0 ==> share * total == demand
    ensures !(total > 0.0) ==> share * count as real == 1.0
  {
    if total > 0.0 then demand / total else 1.0 / count as real
  }

  /** Units still to bake: the least non-negative integer covering demand plus waste allowance net of on-hand. */
  function Need(demand: real, allocWaste: int, onHand: int): (need: int)
    ensures need >= 0
    ensures demand + allocWaste as real - onHand as real <= need as real
    ensures need == 0 || (need as real) < demand + allocWaste as real - onHand as real + 1.0
  {
    Max(0, Ceil(demand + allocWaste as real - onHand as real))
  }

  /** Whole batches covering `need`: the fewest batches whose units are at least `need`. */
  function BatchCount(need: int, batchSize: int): (batches: int)
    requires need >= 0 && batchSize > 0
    ensures batches >= 0
    ensures need <= batches * batchSize < need + batchSize
    ensures batches == 0 <==> need == 0
  {
    CeilDivBounds(need, batchSize);
    Ceil(need as real / batchSize as real)
  }

  /** The plan line of one SKU. */
  function Item(s: Sku, demand: real, onHand: int, share: real): (it: PlanItem)
    requires s.batchSize > 0
    ensures it.sku == s.id && it.onHand == onHand && it.forecast == demand
    ensures it.batchSize == s.batchSize && it.ovenMinutes == s.ovenMinutes
    ensures 35.0 * share - 0.5 < it.allocWaste as real <= 35.0 * share + 0.5
    ensures var need := Need(demand, it.allocWaste, onHand);
            && need <= it.suggestUnits < need + s.batchSize
            && it.suggestUnits % s.batchSize == 0
            && it.suggestUnits == it.batches * s.batchSize
            && (it.batches == 0 <==> need == 0)
    ensures it.etaMinutes == it.batches * s.ovenMinutes
  {
    var allocWaste := Round(WasteTarget() as real * share);
    var need := Need(demand, allocWaste, onHand);
    var batches := BatchCount(need, s.batchSize);
    MultipleModZero(batches, s.batchSize);
    PlanItem(s.id, onHand, demand, allocWaste, s.batchSize, s.ovenMinutes,
             batches * s.batchSize, batches, batches * s.ovenMinutes)
  }

  ghost predicate PositiveBatches(skus: seq<Sku>)
  {
    forall i :: 0 <= i < |skus| ==> skus[i].batchSize > 0
  }

  /** The plan lines of `skus`, in order, for the given total demand and SKU count. */
  function Items(skus: seq<Sku>, rows: Rows, store: StoreId, onHand: Inventory, total: real, count: int): (items: seq<PlanItem>)
    requires PositiveBatches(skus) && |skus| <= count
    ensures |items| == |skus|
    ensures forall i :: 0 <= i < |skus| ==>
      var d := Demand(rows, store, skus[i].id);
      items[i] == Item(skus[i], d, Qty(onHand, skus[i].id), Share(d, total, count))
  {
    if skus == [] then []
    else
      var d := Demand(rows, store, skus[0].id);
      [Item(skus[0], d, Qty(onHand, skus[0].id), Share(d, total, count))]
        + Items(skus[1..], rows, store, onHand, total, count)
  }

  function SumSuggest(items: seq<PlanItem>): (total: int)
    ensures (forall i :: 0 <= i < |items| ==> items[i].suggestUnits >= 0) ==> total >= 0
  {
    if items == [] then 0 else items[0].suggestUnits + SumSuggest(items[1..])
  }

  function SumAlloc(items: seq<PlanItem>): int
  {
    if items == [] then 0 else items[0].allocWaste + SumAlloc(items[1..])
  }

  function SumNeed(items: seq<PlanItem>): int
  {
    if items == [] then 0 else Need(items[0].forecast, items[0].allocWaste, items[0].onHand) + SumNeed(items[1..])
  }

  function SumBatchSize(items: seq<PlanItem>): int
  {
    if items == [] then 0 else items[0].batchSize + SumBatchSize(items[1..])
  }

  /**
   * The `/plan/rest-of-night` computation for (store, day): an error when the
   * day has no cutover snapshot, otherwise one line per catalog SKU.
   */
  function PlanRestOfNight(catalog: seq<Sku>, cutovers: Cutovers, rows: Rows, store: StoreId, day: Day): (r: Result<Plan>)
    requires PositiveBatches(catalog)
    ensures r.Failure? <==> (store, day) !in cutovers
    ensures r.Failure? ==> r.error == NO_SNAPSHOT
    ensures r.Success? ==>
      && r.value.store == store && r.value.date == day
      && |r.value.items| == |catalog|
      && r.value.totalDemand == TotalDemand(catalog, rows, store)
      && r.value.totalSuggest == SumSuggest(r.value.items)
  {
    if (store, day) !in cutovers then Failure(NO_SNAPSHOT)
    else
      var onHand := cutovers[(store, day)];
      var total := TotalDemand(catalog, rows, store);
      var items := Items(catalog, rows, store, onHand, total, |catalog|);
      Success(Plan(store, day, total, SumSuggest(items), items))
  }

  // ---------------------------------------------------------------------------
  // Shares

  function ShareSum(skus: seq<Sku>, rows: Rows, store: StoreId, total: real, count: int): real
    requires count > 0
  {
    if skus == [] then 0.0
    else Share(Demand(rows, store, skus[0].id), total, count) + ShareSum(skus[1..], rows, store, total, count)
  }

  lemma {:induction false} ShareSumValue(skus: seq<Sku>, rows: Rows, store: StoreId, total: real, count: int)
    requires count > 0
    ensures total > 0.0 ==> ShareSum(skus, rows, store, total, count) * total == TotalDemand(skus, rows, store)
    ensures !(total > 0.0) ==> ShareSum(skus, rows, store, total, count) * count as real == |skus| as real
  {
    if skus != [] {
      ShareSumValue(skus[1..], rows, store, total, count);
      var d := Demand(rows, store, skus[0].id);
      var rest := ShareSum(skus[1..], rows, store, total, count);
      if total > 0.0 {
        assert (d / total + rest) * total == d + rest * total;
      } else {
        assert (1.0 / count as real + rest) * count as real == 1.0 + rest * count as real;
      }
    }
  }

  /** Over the whole catalog the shares add up to exactly 1, with or without demand. */
  lemma SharesSumToOne(catalog: seq<Sku>, rows: Rows, store: StoreId)
    requires |catalog| > 0
    ensures ShareSum(catalog, rows, store, TotalDemand(catalog, rows, store), |catalog|) == 1.0
  {
    var total := TotalDemand(catalog, rows, store);
    ShareSumValue(catalog, rows, store, total, |catalog|);
    if total > 0.0 {
      UnitFactor(ShareSum(catalog, rows, store, total, |catalog|), total, TotalDemand(catalog, rows, store));
    } else {
      UnitFactor(ShareSum(catalog, rows, store, total, |catalog|), |catalog| as real, |catalog| as real);
    }
  }

  lemma UnitFactor(s: real, t: real, product: real)
    requires t > 0.0 && s * t == product && product == t
    ensures s == 1.0
  {
    assert s == (s * t) / t;
  }

  lemma {:induction false} DemandWithinTotal(skus: seq<Sku>, rows: Rows, store: StoreId, i: int)
    requires SaneRows(rows) && 0 <= i < |skus|
    ensures 0.0 <= Demand(rows, store, skus[i].id) <= TotalDemand(skus, rows, store)
  {
    if i > 0 {
      DemandWithinTotal(skus[1..], rows, store, i - 1);
      assert skus[1..][i - 1] == skus[i];
    }
  }

  /** With non-negative estimates every SKU's share lies in [0, 1]. */
  lemma ShareInUnitInterval(catalog: seq<Sku>, rows: Rows, store: StoreId, i: int)
    requires SaneRows(rows) && 0 <= i < |catalog|
    ensures var d := Demand(rows, store, catalog[i].id);
            0.0 <= Share(d, TotalDemand(catalog, rows, store), |catalog|) <= 1.0
  {
    var total := TotalDemand(catalog, rows, store);
    var d := Demand(rows, store, catalog[i].id);
    DemandWithinTotal(catalog, rows, store, i);
    if total > 0.0 {
      FractionAtMostOne(d, total);
    }
  }

  // ---------------------------------------------------------------------------
  // Properties of the plan

  /** Every plan line is batch-quantized: whole batches, covering its need by less than one batch. */
  lemma PlanLinesQuantized(catalog: seq<Sku>, cutovers: Cutovers, rows: Rows, store: StoreId, day: Day, i: int)
    requires PositiveBatches(catalog) && (store, day) in cutovers && 0 <= i < |catalog|
    ensures var it := PlanRestOfNight(catalog, cutovers, rows, store, day).value.items[i];
            var need := Need(Demand(rows, store, catalog[i].id), it.allocWaste, Qty(cutovers[(store, day)], catalog[i].id));
            && it.sku == catalog[i].id
            && it.onHand == Qty(cutovers[(store, day)], catalog[i].id)
            && it.forecast == Demand(rows, store, catalog[i].id)
            && it.suggestUnits % catalog[i].batchSize == 0
            && need <= it.suggestUnits < need + catalog[i].batchSize
            && (it.batches == 0 <==> need == 0)
            && it.etaMinutes == it.batches * catalog[i].ovenMinutes
  {
  }

  /** Line `i` of a plan is the line of catalog SKU `i` with its demand share. */
  lemma PlanLine(catalog: seq<Sku>, cutovers: Cutovers, rows: Rows, store: StoreId, day: Day, i: int)
    requires PositiveBatches(catalog) && (store, day) in cutovers && 0 <= i < |catalog|
    ensures var d := Demand(rows, store, catalog[i].id);
            PlanRestOfNight(catalog, cutovers, rows, store, day).value.items[i]
              == Item(catalog[i], d, Qty(cutovers[(store, day)], catalog[i].id),
                      Share(d, TotalDemand(catalog, rows, store), |catalog|))
  {
  }

  /**
   * With no positive total demand the waste target is spread uniformly: every
   * line is computed with share 1/count, so each allowance is within half a
   * unit of 35/count.
   */
  lemma ZeroDemandSpreadsWasteEvenly(catalog: seq<Sku>, cutovers: Cutovers, rows: Rows, store: StoreId, day: Day, i: int)
    requires PositiveBatches(catalog) && (store, day) in cutovers && 0 <= i < |catalog|
    requires !(TotalDemand(catalog, rows, store) > 0.0)
    ensures var it := PlanRestOfNight(catalog, cutovers, rows, store, day).value.items[i];
            var uniform := 1.0 / |catalog| as real;
            && it == Item(catalog[i], Demand(rows, store, catalog[i].id), Qty(cutovers[(store, day)], catalog[i].id), uniform)
            && 35.0 * uniform - 0.5 < it.allocWaste as real <= 35.0 * uniform + 0.5
  {
    PlanLine(catalog, cutovers, rows, store, day, i);
  }

  lemma {:induction false} AllocSumBounds(skus: seq<Sku>, rows: Rows, store: StoreId, onHand: Inventory, total: real, count: int)
    requires PositiveBatches(skus) && |skus| <= count && count > 0
    ensures var items := Items(skus, rows, store, onHand, total, count);
            var exact := 35.0 * ShareSum(skus, rows, store, total, count);
            && exact - |skus| as real / 2.0 <= SumAlloc(items) as real <= exact + |skus| as real / 2.0
            && (skus != [] ==> exact - |skus| as real / 2.0 < SumAlloc(items) as real)
  {
    if skus != [] {
      var items := Items(skus, rows, store, onHand, total, count);
      assert items[1..] == Items(skus[1..], rows, store, onHand, total, count);
      AllocSumBounds(skus[1..], rows, store, onHand, total, count);
    }
  }

  /**
   * The rounded allowances add up to the waste target within rounding
   * tolerance: within half a unit per SKU.
   */
  lemma WasteAllocationNearTarget(catalog: seq<Sku>, cutovers: Cutovers, rows: Rows, store: StoreId, day: Day)
    requires PositiveBatches(catalog) && (store, day) in cutovers && |catalog| > 0
    ensures var alloc := SumAlloc(PlanRestOfNight(catalog, cutovers, rows, store, day).value.items) as real;
            35.0 - |catalog| as real / 2.0 < alloc <= 35.0 + |catalog| as real / 2.0
  {
    var total := TotalDemand(catalog, rows, store);
    AllocSumBounds(catalog, rows, store, cutovers[(store, day)], total, |catalog|);
    SharesSumToOne(catalog, rows, store);
  }

  lemma {:induction false} SuggestCoversNeed(skus: seq<Sku>, rows: Rows, store: StoreId, onHand: Inventory, total: real, count: int)
    requires PositiveBatches(skus) && |skus| <= count
    ensures var items := Items(skus, rows, store, onHand, total, count);
            && SumNeed(items) <= SumSuggest(items) <= SumNeed(items) + SumBatchSize(items)
            && (skus != [] ==> SumSuggest(items) < SumNeed(items) + SumBatchSize(items))
  {
    if skus != [] {
      var items := Items(skus, rows, store, onHand, total, count);
      assert items[1..] == Items(skus[1..], rows, store, onHand, total, count);
      SuggestCoversNeed(skus[1..], rows, store, onHand, total, count);
    }
  }

  /**
   * The plan's total suggestion covers the total need of its lines and
   * exceeds it by less than one batch per line.
   */
  lemma TotalSuggestCoversTotalNeed(catalog: seq<Sku>, cutovers: Cutovers, rows: Rows, store: StoreId, day: Day)
    requires PositiveBatches(catalog) && (store, day) in cutovers && |catalog| > 0
    ensures var p := PlanRestOfNight(catalog, cutovers, rows, store, day).value;
            SumNeed(p.items) <= p.totalSuggest < SumNeed(p.items) + SumBatchSize(p.items)
  {
    SuggestCoversNeed(catalog, rows, store, cutovers[(store, day)], TotalDemand(catalog, rows, store), |catalog|);
  }

  /**
   * One SKU with batches of 6 and 16 oven minutes, demand 10 and 2 on hand:
   * it takes the whole waste target of 35, needs 43 units, gets 8 batches,
   * 48 units and 128 minutes.
   */
  lemma SingleSkuScenario()
    ensures var catalog := [Sku(1, 6, 16)];
            var cutovers := map[(7, 100) := map[1 := 2]];
            var rows := map[(7, 1) := ForecastRow(10.0, 3, DEFAULT_ALPHA)];
            PlanRestOfNight(catalog, cutovers, rows, 7, 100)
              == Success(Plan(7, 100, 10.0, 48, [PlanItem(1, 2, 10.0, 35, 6, 16, 48, 8, 128)]))
  {
    var catalog := [Sku(1, 6, 16)];
    var cutovers := map[(7, 100) := map[1 := 2]];
    var rows := map[(7, 1) := ForecastRow(10.0, 3, DEFAULT_ALPHA)];
    assert TotalDemand(catalog, rows, 7) == 10.0;
    var it := Item(catalog[0], 10.0, 2, Share(10.0, 10.0, 1));
    assert Share(10.0, 10.0, 1) == 1.0;
    assert it.allocWaste == 35;
    assert Need(10.0, 35, 2) == 43;
    assert BatchCount(43, 6) == 8;
    assert it == PlanItem(1, 2, 10.0, 35, 6, 16, 48, 8, 128);
    var items := Items(catalog, rows, 7, map[1 := 2], 10.0, 1);
    assert items == [it];
    assert SumSuggest(items) == 48;
  }
}
