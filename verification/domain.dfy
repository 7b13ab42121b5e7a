/**
 * The data model shared by the forecast estimator and the rest-of-night
 * planner: the SKU catalog, bake events, cutover snapshots, close records and
 * per-(store, SKU) forecast rows, together with the configuration constants.
 *
 * Dates are day numbers and timestamps are minutes since the start of day 0.
 */
module Domain {

  type StoreId = int
  type SkuId = int
  type Day = int

  /** SKU id -> quantity, as stored in the JSON columns of a snapshot or close record. */
  type Inventory = map<SkuId, int>

  datatype Option<+T> = None | Some(value: T)

  datatype Result<+T> = Success(value: T) | Failure(error: string)

  /** A catalog entry; only the fields the planner computes with are kept. */
  datatype Sku = Sku(id: SkuId, batchSize: int, ovenMinutes: int)

  /** One completed baking run, appended to the bake log. */
  datatype BakeEvent = BakeEvent(store: StoreId, sku: SkuId, ts: int, qty: int)

  /** The end-of-day record: units left over and units wasted, per SKU. */
  datatype CloseRecord = CloseRecord(leftover: Inventory, waste: Inventory)

  /** The smoothed demand estimate of one (store, SKU) pair. */
  datatype ForecastRow = ForecastRow(ewma: real, n: int, alpha: real)

  type DayKey = (StoreId, Day)
  type RowKey = (StoreId, SkuId)

  type Cutovers = map<DayKey, Inventory>
  type Closes = map<DayKey, CloseRecord>
  type Rows = map<RowKey, ForecastRow>

  const DEFAULT_ALPHA: real := 0.35
  const WASTE_TARGET_MIN: int := 30
  const WASTE_TARGET_MAX: int := 40
  const MINUTES_PER_DAY: int := 24 * 60
  /** The daily cutover instant, 19:30, in minutes after midnight. */
  const CUTOVER_MINUTE: int := 19 * 60 + 30

  /** A quantity lookup where a missing SKU counts as 0 (`Number(m[id] || 0)`). */
  function Qty(m: Inventory, id: SkuId): (q: int)
    ensures id in m ==> q == m[id]
    ensures q != 0 ==> id in m
  {
    if id in m then m[id] else 0
  }

  /** The forecast row stored under `k`, if any. */
  function Row(rows: Rows, k: RowKey): (r: Option<ForecastRow>)
    ensures r.Some? <==> k in rows
    ensures r.Some? ==> r.value == rows[k]
  {
    if k in rows then Some(rows[k]) else None
  }

  /** SKU ids are the primary key of the catalog table. */
  ghost predicate DistinctIds(skus: seq<Sku>)
  {
    forall i, j :: 0 <= i < j < |skus| ==> skus[i].id != skus[j].id
  }

  /** What the seeded catalog guarantees: unique ids and positive batch sizes. */
  ghost predicate WellFormedCatalog(catalog: seq<Sku>)
  {
    && DistinctIds(catalog)
    && forall i :: 0 <= i < |catalog| ==> catalog[i].batchSize > 0
  }

  /** Every stored row has a smoothing factor in [0, 1] and a non-negative estimate. */
  ghost predicate SaneRows(rows: Rows)
  {
    forall k :: k in rows ==> 0.0 <= rows[k].alpha <= 1.0 && rows[k].ewma >= 0.0
  }
}
