/**
 * The stateful part of the service: the keyed tables it persists (bake log,
 * cutover snapshots, close records, forecast rows) held as fields of one
 * object, and the operations that write them. The per-SKU rebuild loop
 * updates the forecast table row by row, as the service does.
 */
module Engine {
  import opened Domain
  import opened Estimator
  import Planner

  class ForecastEngine {
    /** The SKU table; seeding is outside this model, so it never changes here. */
    const catalog: seq<Sku>
    var bakes: seq<BakeEvent>
    var cutovers: Cutovers
    var closes: Closes
    var forecasts: Rows

    /** The catalog is well formed and every forecast row is sane. */
    ghost predicate Valid()
      reads this
    {
      WellFormedCatalog(catalog) && SaneRows(forecasts)
    }

    constructor (catalog: seq<Sku>)
      requires WellFormedCatalog(catalog)
      ensures Valid()
      ensures this.catalog == catalog
      ensures bakes == [] && cutovers == map[] && closes == map[] && forecasts == map[]
    {
      this.catalog := catalog;
      bakes := [];
      cutovers := map[];
      closes := map[];
      forecasts := map[];
    }

    /** `/bake`: appends one bake event to the log. */
    method RecordBake(e: BakeEvent)
      requires Valid()
      modifies this`bakes
      ensures Valid()
      ensures bakes == old(bakes) + [e]
    {
      bakes := bakes + [e];
    }

    /** `/cutover`: upserts the snapshot of (store, day); the last write wins. */
    method RecordCutover(store: StoreId, day: Day, onHand: Inventory)
      requires Valid()
      modifies this`cutovers
      ensures Valid()
      ensures cutovers == old(cutovers)[(store, day) := onHand]
    {
      cutovers := cutovers[(store, day) := onHand];
    }

    /**
     * `rebuildForDay`: when both boundary records of (store, day) exist,
     * smooths every catalog SKU's row of `store` with that day's sales, one
     * SKU after the other; otherwise returns without touching anything.
     */
    method RebuildForDay(store: StoreId, day: Day)
      requires Valid()
      modifies this`forecasts
      ensures Valid()
      ensures forecasts == Rebuilt(old(forecasts), catalog, cutovers, closes, bakes, store, day)
    {
      var key := (store, day);
      if key !in cutovers || key !in closes {
        return;
      }
      var onHand := cutovers[key];
      var close := closes[key];
      var post := SumPostCutover(bakes, store, day);
      ghost var obs := Observation(onHand, post, close);
      var i := 0;
      while i < |catalog|
        invariant 0 <= i <= |catalog|
        invariant forecasts == Smoothed(old(forecasts), store, catalog[..i], obs)
      {
        var id := catalog[i].id;
        var soldAfter := SoldAfter(Qty(onHand, id), Qty(post, id), Qty(close.leftover, id), Qty(close.waste, id));
        var cur := if (store, id) in forecasts then Some(forecasts[(store, id)]) else None;
        assert cur == Row(forecasts, (store, id)) && soldAfter == Sold(obs, id);
        ghost var before := forecasts;
        forecasts := forecasts[(store, id) := SmoothStep(cur, soldAfter)];
        SmoothedStep(old(forecasts), store, catalog, obs, i, before);
        i := i + 1;
      }
      assert catalog[..i] == catalog;
      RebuildKeepsRowsSane(old(forecasts), catalog, cutovers, closes, bakes, store, day);
    }

    /**
     * `/close`: upserts the close record of (store, day) and then always
     * rebuilds that day, so closing the same day again smooths it in again.
     */
    method CloseDay(store: StoreId, day: Day, leftover: Inventory, waste: Inventory)
      requires Valid()
      modifies this`closes, this`forecasts
      ensures Valid()
      ensures closes == old(closes)[(store, day) := CloseRecord(leftover, waste)]
      ensures forecasts == Rebuilt(old(forecasts), catalog, cutovers, closes, bakes, store, day)
    {
      closes := closes[(store, day) := CloseRecord(leftover, waste)];
      RebuildForDay(store, day);
    }

    /** `/plan/rest-of-night` over the current tables; it reads and changes nothing. */
    method PlanRestOfNight(store: StoreId, day: Day) returns (r: Result<Planner.Plan>)
      requires Valid()
      ensures r.Failure? <==> (store, day) !in cutovers
      ensures r.Success? ==> r.value.totalDemand >= 0.0
      ensures r == Planner.PlanRestOfNight(catalog, cutovers, forecasts, store, day)
    {
      r := Planner.PlanRestOfNight(catalog, cutovers, forecasts, store, day);
    }
  }

  /**
   * Closing the same day twice after its cutover was recorded: every catalog
   * SKU's count goes up by two, the second close smoothing the same sales in
   * again on top of the first.
   */
  method CloseTwice(engine: ForecastEngine, store: StoreId, day: Day, leftover: Inventory, waste: Inventory)
    requires engine.Valid() && (store, day) in engine.cutovers
    modifies engine`closes, engine`forecasts
    ensures engine.Valid()
    ensures forall i :: 0 <= i < |engine.catalog| ==>
      var k := (store, engine.catalog[i].id);
      && k in engine.forecasts
      && engine.forecasts[k].n == (if k in old(engine.forecasts) then old(engine.forecasts)[k].n else 0) + 2
  {
    engine.CloseDay(store, day, leftover, waste);
    ghost var once := engine.forecasts;
    engine.CloseDay(store, day, leftover, waste);
    forall i | 0 <= i < |engine.catalog|
      ensures var k := (store, engine.catalog[i].id);
              && k in engine.forecasts
              && engine.forecasts[k].n == (if k in old(engine.forecasts) then old(engine.forecasts)[k].n else 0) + 2
    {
      RebuildUpdatesEveryCatalogSku(old(engine.forecasts), engine.catalog, engine.cutovers, engine.closes, engine.bakes, store, day, i);
      RebuildTwiceCountsTwice(old(engine.forecasts), engine.catalog, engine.cutovers, engine.closes, engine.bakes, store, day, i);
    }
  }
}
