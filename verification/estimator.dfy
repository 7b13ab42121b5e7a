/**
 * The forecast estimator: from one day's cutover snapshot, close record and
 * post-cutover bakes, it computes each catalog SKU's observed post-cutover
 * sales and applies one exponential-smoothing step to that SKU's forecast row.
 */
module Estimator {
  import opened Domain
  import opened JsMath

  // ---------------------------------------------------------------------------
  // The post-cutover bake window

  /** The cutover instant of `day` (19:30 on that day). */
  function CutoverInstant(day: Day): int
  {
    day * MINUTES_PER_DAY + CUTOVER_MINUTE
  }

  /** The first instant of the following day. */
  function NextDayStart(day: Day): int
  {
    (day + 1) * MINUTES_PER_DAY
  }

  /** A bake of `store` counts for `day` when its timestamp lies in [cutover, next day). */
  predicate InWindow(e: BakeEvent, store: StoreId, day: Day)
    ensures InWindow(e, store, day) <==>
      e.store == store && e.ts / MINUTES_PER_DAY == day && e.ts % MINUTES_PER_DAY >= CUTOVER_MINUTE
  {
    e.store == store && CutoverInstant(day) <= e.ts < NextDayStart(day)
  }

  lemma WindowIsHalfOpen(store: StoreId, sku: SkuId, day: Day, qty: int)
    ensures InWindow(BakeEvent(store, sku, CutoverInstant(day), qty), store, day)
    ensures InWindow(BakeEvent(store, sku, NextDayStart(day) - 1, qty), store, day)
    ensures !InWindow(BakeEvent(store, sku, CutoverInstant(day) - 1, qty), store, day)
    ensures !InWindow(BakeEvent(store, sku, NextDayStart(day), qty), store, day)
    ensures NextDayStart(day) - CutoverInstant(day) == 270
  {
  }

  /** What a single event adds to the post-cutover total of `sku`. */
  function Contribution(e: BakeEvent, store: StoreId, day: Day, sku: SkuId): int
  {
    if InWindow(e, store, day) && e.sku == sku then e.qty else 0
  }

  /** Reference definition: the post-cutover baked total of one SKU, summed over the log. */
  function BakedSum(bakes: seq<BakeEvent>, store: StoreId, day: Day, sku: SkuId): (total: int)
    ensures (forall i :: 0 <= i < |bakes| ==> bakes[i].qty >= 0) ==> total >= 0
  {
    if bakes == [] then 0
    else Contribution(bakes[0], store, day, sku) + BakedSum(bakes[1..], store, day, sku)
  }

  /**
   * The per-SKU totals of the grouped sum query, built event by event in log
   * order; SKUs without any in-window bake have no entry.
   */
  function BakedTotals(bakes: seq<BakeEvent>, store: StoreId, day: Day): (post: Inventory)
    ensures forall id :: id in post ==>
      exists i :: 0 <= i < |bakes| && InWindow(bakes[i], store, day) && bakes[i].sku == id
  {
    if bakes == [] then map[]
    else
      var prefix := bakes[..|bakes| - 1];
      var post := BakedTotals(prefix, store, day);
      var e := bakes[|bakes| - 1];
      assert forall i :: 0 <= i < |prefix| ==> prefix[i] == bakes[i];
      if InWindow(e, store, day) then post[e.sku := Qty(post, e.sku) + e.qty] else post
  }

  lemma {:induction false} BakedSumAppend(a: seq<BakeEvent>, b: seq<BakeEvent>, store: StoreId, day: Day, sku: SkuId)
    ensures BakedSum(a + b, store, day, sku) == BakedSum(a, store, day, sku) + BakedSum(b, store, day, sku)
  {
    if a == [] {
      assert a + b == b;
    } else {
      assert (a + b)[1..] == a[1..] + b;
      BakedSumAppend(a[1..], b, store, day, sku);
    }
  }

  /** Events of other stores, other SKUs or outside the window add nothing. */
  lemma {:induction false} OutsideEventsContributeNothing(a: seq<BakeEvent>, b: seq<BakeEvent>, store: StoreId, day: Day, sku: SkuId)
    requires forall i :: 0 <= i < |b| ==> !InWindow(b[i], store, day) || b[i].sku != sku
    ensures BakedSum(a + b, store, day, sku) == BakedSum(a, store, day, sku)
    ensures BakedSum(b + a, store, day, sku) == BakedSum(a, store, day, sku)
  {
    BakedSumAppend(a, b, store, day, sku);
    BakedSumAppend(b, a, store, day, sku);
    NothingInWindow(b, store, day, sku);
  }

  lemma {:induction false} NothingInWindow(b: seq<BakeEvent>, store: StoreId, day: Day, sku: SkuId)
    requires forall i :: 0 <= i < |b| ==> !InWindow(b[i], store, day) || b[i].sku != sku
    ensures BakedSum(b, store, day, sku) == 0
  {
    if b != [] {
      assert forall i :: 0 <= i < |b[1..]| ==> b[1..][i] == b[i + 1];
      NothingInWindow(b[1..], store, day, sku);
    }
  }

  /** The grouped totals agree, SKU by SKU, with the reference sum. */
  lemma {:induction false} BakedTotalsAgree(bakes: seq<BakeEvent>, store: StoreId, day: Day, sku: SkuId)
    ensures Qty(BakedTotals(bakes, store, day), sku) == BakedSum(bakes, store, day, sku)
  {
    if bakes != [] {
      var prefix, e := bakes[..|bakes| - 1], bakes[|bakes| - 1];
      assert bakes == prefix + [e];
      BakedTotalsAgree(prefix, store, day, sku);
      BakedSumAppend(prefix, [e], store, day, sku);
    }
  }

  /** Scans the bake log once and accumulates the post-cutover total of every SKU. */
  method SumPostCutover(bakes: seq<BakeEvent>, store: StoreId, day: Day) returns (post: Inventory)
    ensures post == BakedTotals(bakes, store, day)
    ensures forall id :: Qty(post, id) == BakedSum(bakes, store, day, id)
  {
    post := map[];
    var i := 0;
    while i < |bakes|
      invariant 0 <= i <= |bakes|
      invariant post == BakedTotals(bakes[..i], store, day)
    {
      var e := bakes[i];
      if InWindow(e, store, day) {
        post := post[e.sku := Qty(post, e.sku) + e.qty];
      }
      assert bakes[..i + 1][..i] == bakes[..i];
      i := i + 1;
    }
    assert bakes[..i] == bakes;
    forall id ensures Qty(post, id) == BakedSum(bakes, store, day, id) {
      BakedTotalsAgree(bakes, store, day, id);
    }
  }

  // ---------------------------------------------------------------------------
  // Observed sales and the smoothing step

  /** Units sold after cutover: what was on hand or baked and did not end up left over or wasted. */
  function SoldAfter(onHand: int, baked: int, leftover: int, waste: int): (sold: int)
    ensures sold >= 0
    ensures sold >= onHand + baked - leftover - waste
    ensures sold == 0 || sold == onHand + baked - leftover - waste
  {
    Max(0, onHand + baked - leftover - waste)
  }

  /** The inputs of one rebuild: cutover on-hand, post-cutover bake totals and the close record. */
  datatype Observation = Observation(onHand: Inventory, baked: Inventory, close: CloseRecord)

  /** The day's sales signal for one SKU; SKUs missing from any map count as 0. */
  function Sold(obs: Observation, id: SkuId): (sold: int)
    ensures sold >= 0
  {
    SoldAfter(Qty(obs.onHand, id), Qty(obs.baked, id), Qty(obs.close.leftover, id), Qty(obs.close.waste, id))
  }

  /** One exponential-smoothing step with factor `alpha`. */
  function Ewma(alpha: real, sold: real, prev: real): (next: real)
    ensures next - prev == alpha * (sold - prev)
    ensures alpha == 1.0 ==> next == sold
    ensures alpha == 0.0 ==> next == prev
  {
    alpha * sold + (1.0 - alpha) * prev
  }

  /** With `alpha` in [0, 1] the new estimate is a convex combination of the old one and the observation. */
  lemma EwmaBetween(alpha: real, sold: real, prev: real)
    requires 0.0 <= alpha <= 1.0
    ensures prev <= sold ==> prev <= Ewma(alpha, sold, prev) <= sold
    ensures sold <= prev ==> sold <= Ewma(alpha, sold, prev) <= prev
  {
    var d := sold - prev;
    assert Ewma(alpha, sold, prev) == prev + alpha * d;
    if d >= 0.0 {
      assert 0.0 <= alpha * d <= d;
    } else {
      assert d <= alpha * d <= 0.0;
    }
  }

  /**
   * The update of one forecast row. Without a row the previous estimate is
   * the observation itself, the count starts at 0 and alpha is the default.
   */
  function SmoothStep(cur: Option<ForecastRow>, sold: int): (next: ForecastRow)
    ensures cur.None? ==> next == ForecastRow(sold as real, 1, DEFAULT_ALPHA)
    ensures cur.Some? ==> next.n == cur.value.n + 1 && next.alpha == cur.value.alpha
    ensures cur.Some? && 0.0 <= cur.value.alpha <= 1.0 ==>
      (cur.value.ewma <= sold as real ==> cur.value.ewma <= next.ewma <= sold as real) &&
      (sold as real <= cur.value.ewma ==> sold as real <= next.ewma <= cur.value.ewma)
    ensures cur.Some? && cur.value.ewma == sold as real ==> next.ewma == sold as real
  {
    var prev := if cur.Some? then cur.value.ewma else sold as real;
    var n := if cur.Some? then cur.value.n else 0;
    var alpha := if cur.Some? then cur.value.alpha else DEFAULT_ALPHA;
    var next := ForecastRow(Ewma(alpha, sold as real, prev), n + 1, alpha);
    // The same row either way; the branch only brings the convexity lemma into scope.
    if cur.Some? && 0.0 <= alpha <= 1.0 then EwmaBetween(alpha, sold as real, prev); next else next
  }

  // ---------------------------------------------------------------------------
  // The rebuild

  /** The rows after smoothing the SKUs of `skus` one after the other, as the per-SKU loop does. */
  function Smoothed(rows: Rows, store: StoreId, skus: seq<Sku>, obs: Observation): (r: Rows)
    ensures r.Keys == rows.Keys + set i | 0 <= i < |skus| :: (store, skus[i].id)
    decreases |skus|
  {
    if skus == [] then rows
    else
      var prefix := skus[..|skus| - 1];
      var acc := Smoothed(rows, store, prefix, obs);
      var k := (store, skus[|skus| - 1].id);
      assert forall i :: 0 <= i < |prefix| ==> prefix[i] == skus[i];
      acc[k := SmoothStep(Row(acc, k), Sold(obs, k.1))]
  }

  /** One more SKU of the loop: the rows for the first i + 1 SKUs are the rows for the first i, with that SKU's row smoothed. */
  lemma SmoothedStep(rows: Rows, store: StoreId, skus: seq<Sku>, obs: Observation, i: int, acc: Rows)
    requires 0 <= i < |skus| && acc == Smoothed(rows, store, skus[..i], obs)
    ensures Smoothed(rows, store, skus[..i + 1], obs)
         == acc[(store, skus[i].id) := SmoothStep(Row(acc, (store, skus[i].id)), Sold(obs, skus[i].id))]
  {
    assert skus[..i + 1][..i] == skus[..i];
  }

  /** A row whose key is not one of the smoothed (store, SKU) pairs is left as it was. */
  lemma {:induction false} SmoothedOutside(rows: Rows, store: StoreId, skus: seq<Sku>, obs: Observation, k: RowKey)
    requires k.0 != store || forall i :: 0 <= i < |skus| ==> skus[i].id != k.1
    ensures Row(Smoothed(rows, store, skus, obs), k) == Row(rows, k)
  {
    if skus != [] {
      var prefix := skus[..|skus| - 1];
      assert forall i :: 0 <= i < |prefix| ==> prefix[i] == skus[i];
      SmoothedOutside(rows, store, prefix, obs, k);
    }
  }

  /** With distinct ids, each smoothed SKU's row is one step from its row before the rebuild. */
  lemma {:induction false} SmoothedAt(rows: Rows, store: StoreId, skus: seq<Sku>, obs: Observation, i: int)
    requires DistinctIds(skus) && 0 <= i < |skus|
    ensures (store, skus[i].id) in Smoothed(rows, store, skus, obs)
    ensures Smoothed(rows, store, skus, obs)[(store, skus[i].id)]
         == SmoothStep(Row(rows, (store, skus[i].id)), Sold(obs, skus[i].id))
  {
    var last := |skus| - 1;
    var prefix := skus[..last];
    assert forall j :: 0 <= j < |prefix| ==> prefix[j] == skus[j];
    if i == last {
      SmoothedOutside(rows, store, prefix, obs, (store, skus[i].id));
    } else {
      SmoothedAt(rows, store, prefix, obs, i);
    }
  }

  /** Smoothing keeps every row sane: alpha stays in [0, 1] and the estimate stays non-negative. */
  lemma {:induction false} SmoothedKeepsSane(rows: Rows, store: StoreId, skus: seq<Sku>, obs: Observation)
    requires SaneRows(rows)
    ensures SaneRows(Smoothed(rows, store, skus, obs))
  {
    if skus != [] {
      var prefix := skus[..|skus| - 1];
      SmoothedKeepsSane(rows, store, prefix, obs);
      var acc := Smoothed(rows, store, prefix, obs);
      var k := (store, skus[|skus| - 1].id);
      var next := SmoothStep(Row(acc, k), Sold(obs, k.1));
      if k in acc {
        assert 0.0 <= next.ewma;
      }
    }
  }

  /**
   * `rebuildForDay`: a no-op unless both the cutover snapshot and the close
   * record of (store, day) exist; otherwise every catalog SKU is smoothed in
   * catalog order against that day's observation.
   */
  function Rebuilt(rows: Rows, catalog: seq<Sku>, cutovers: Cutovers, closes: Closes,
                   bakes: seq<BakeEvent>, store: StoreId, day: Day): (r: Rows)
    ensures (store, day) !in cutovers || (store, day) !in closes ==> r == rows
  {
    var key := (store, day);
    if key in cutovers && key in closes then
      Smoothed(rows, store, catalog, Observation(cutovers[key], BakedTotals(bakes, store, day), closes[key]))
    else rows
  }

  /** The sales signal of SKU `id` for (store, day), in terms of the reference bake sum. */
  function DaySold(cutovers: Cutovers, closes: Closes, bakes: seq<BakeEvent>, store: StoreId, day: Day, id: SkuId): (sold: int)
    requires (store, day) in cutovers && (store, day) in closes
    ensures sold >= 0
    ensures sold == Sold(Observation(cutovers[(store, day)], BakedTotals(bakes, store, day), closes[(store, day)]), id)
  {
    BakedTotalsAgree(bakes, store, day, id);
    SoldAfter(Qty(cutovers[(store, day)], id), BakedSum(bakes, store, day, id),
              Qty(closes[(store, day)].leftover, id), Qty(closes[(store, day)].waste, id))
  }

  /**
   * When both records exist, every catalog SKU of the store has a row
   * afterwards: a fresh one (estimate = sales, n = 1, default alpha) if it had
   * none, otherwise the old one smoothed once, with n + 1 and alpha unchanged.
   */
  lemma RebuildUpdatesEveryCatalogSku(rows: Rows, catalog: seq<Sku>, cutovers: Cutovers, closes: Closes,
                                      bakes: seq<BakeEvent>, store: StoreId, day: Day, i: int)
    requires DistinctIds(catalog) && 0 <= i < |catalog|
    requires (store, day) in cutovers && (store, day) in closes
    ensures var r := Rebuilt(rows, catalog, cutovers, closes, bakes, store, day);
            var k := (store, catalog[i].id);
            var sold := DaySold(cutovers, closes, bakes, store, day, catalog[i].id);
            && k in r
            && (k !in rows ==> r[k] == ForecastRow(sold as real, 1, DEFAULT_ALPHA))
            && (k in rows ==> r[k] == ForecastRow(Ewma(rows[k].alpha, sold as real, rows[k].ewma), rows[k].n + 1, rows[k].alpha))
  {
    var key := (store, day);
    var obs := Observation(cutovers[key], BakedTotals(bakes, store, day), closes[key]);
    SmoothedAt(rows, store, catalog, obs, i);
    BakedTotalsAgree(bakes, store, day, catalog[i].id);
  }

  /** Rows of other stores, and rows of SKUs outside the catalog, are untouched. */
  lemma RebuildLeavesOtherRows(rows: Rows, catalog: seq<Sku>, cutovers: Cutovers, closes: Closes,
                               bakes: seq<BakeEvent>, store: StoreId, day: Day, k: RowKey)
    requires k.0 != store || forall i :: 0 <= i < |catalog| ==> catalog[i].id != k.1
    ensures Row(Rebuilt(rows, catalog, cutovers, closes, bakes, store, day), k) == Row(rows, k)
  {
    var key := (store, day);
    if key in cutovers && key in closes {
      SmoothedOutside(rows, store, catalog, Observation(cutovers[key], BakedTotals(bakes, store, day), closes[key]), k);
    }
  }

  /** A rebuild never makes a row insane: sane rows in, sane rows out. */
  lemma RebuildKeepsRowsSane(rows: Rows, catalog: seq<Sku>, cutovers: Cutovers, closes: Closes,
                             bakes: seq<BakeEvent>, store: StoreId, day: Day)
    requires SaneRows(rows)
    ensures SaneRows(Rebuilt(rows, catalog, cutovers, closes, bakes, store, day))
  {
    var key := (store, day);
    if key in cutovers && key in closes {
      SmoothedKeepsSane(rows, store, catalog, Observation(cutovers[key], BakedTotals(bakes, store, day), closes[key]));
    }
  }

  /**
   * Rebuilding the same day twice smooths the same observation in a second
   * time: the count goes up by two and the result differs from a single
   * rebuild. Rebuilds are not idempotent.
   */
  lemma RebuildTwiceCountsTwice(rows: Rows, catalog: seq<Sku>, cutovers: Cutovers, closes: Closes,
                                bakes: seq<BakeEvent>, store: StoreId, day: Day, i: int)
    requires DistinctIds(catalog) && 0 <= i < |catalog|
    requires (store, day) in cutovers && (store, day) in closes
    ensures var once := Rebuilt(rows, catalog, cutovers, closes, bakes, store, day);
            var twice := Rebuilt(once, catalog, cutovers, closes, bakes, store, day);
            var k := (store, catalog[i].id);
            var sold := DaySold(cutovers, closes, bakes, store, day, catalog[i].id);
            && k in once && k in twice
            && twice[k] == ForecastRow(Ewma(once[k].alpha, sold as real, once[k].ewma), once[k].n + 1, once[k].alpha)
            && twice != once
  {
    var once := Rebuilt(rows, catalog, cutovers, closes, bakes, store, day);
    RebuildUpdatesEveryCatalogSku(rows, catalog, cutovers, closes, bakes, store, day, i);
    RebuildUpdatesEveryCatalogSku(once, catalog, cutovers, closes, bakes, store, day, i);
    var k := (store, catalog[i].id);
    var twice := Rebuilt(once, catalog, cutovers, closes, bakes, store, day);
    assert twice[k].n != once[k].n;
  }

  /**
   * A worked day: on hand 20 at cutover, 12 baked after cutover (a bake just
   * before cutover and one of another store do not count), 5 left over and
   * 3 wasted: 24 sold, and a steady estimate of 24 stays 24.
   */
  lemma SteadyStateScenario()
    ensures var day := 100;
            var bakes := [BakeEvent(7, 1, CutoverInstant(day) - 10, 100),
                          BakeEvent(7, 1, CutoverInstant(day) + 30, 12),
                          BakeEvent(8, 1, CutoverInstant(day) + 30, 50)];
            var cutovers := map[(7, day) := map[1 := 20]];
            var closes := map[(7, day) := CloseRecord(map[1 := 5], map[1 := 3])];
            var rows := map[(7, 1) := ForecastRow(24.0, 4, DEFAULT_ALPHA)];
            Rebuilt(rows, [Sku(1, 6, 16)], cutovers, closes, bakes, 7, day)
              == map[(7, 1) := ForecastRow(24.0, 5, DEFAULT_ALPHA)]
  {
    var day := 100;
    var bakes := [BakeEvent(7, 1, CutoverInstant(day) - 10, 100),
                  BakeEvent(7, 1, CutoverInstant(day) + 30, 12),
                  BakeEvent(8, 1, CutoverInstant(day) + 30, 50)];
    assert BakedSum(bakes[2..], 7, day, 1) == 0;
    assert BakedSum(bakes[1..], 7, day, 1) == 12;
    assert BakedSum(bakes, 7, day, 1) == 12;
    var cutovers := map[(7, day) := map[1 := 20]];
    var closes := map[(7, day) := CloseRecord(map[1 := 5], map[1 := 3])];
    var rows := map[(7, 1) := ForecastRow(24.0, 4, DEFAULT_ALPHA)];
    assert DaySold(cutovers, closes, bakes, 7, day, 1) == 24;
    RebuildUpdatesEveryCatalogSku(rows, [Sku(1, 6, 16)], cutovers, closes, bakes, 7, day, 0);
    var r := Rebuilt(rows, [Sku(1, 6, 16)], cutovers, closes, bakes, 7, day);
    assert r.Keys == {(7, 1)};
  }
}
