# Bake forecaster: forecast estimator and rest-of-night planner

This project models the forecasting and planning engine of a bakery
inventory service (`src/server.ts`). The service keeps a catalog of SKUs,
a log of bake events, a cutover snapshot of on-hand stock per (store, date)
taken at 19:30, a close record per (store, date) holding leftover and
wasted units, and one forecast row per (store, SKU).

* **Forecast estimator** (`Estimator`, `Engine.ForecastEngine.RebuildForDay`).
  Closing a day upserts its close record and rebuilds that day. The rebuild
  does nothing unless both the snapshot and the close record exist. If both
  exist it sums each SKU's bakes in the half-open window
  [date 19:30, next day 00:00). Each catalog SKU's post-cutover sales are
  `max(0, onHand + baked - leftover - waste)`. The rebuild then applies one
  exponential-smoothing step `next = α·sold + (1-α)·prev` to the SKU's row.
  When the row is missing, `prev` is the sales figure, `n` starts at 0 and
  α is 0.35. When the row exists, α is carried over and `n` goes up by one.
  Rebuilds are not idempotent: closing the same day twice smooths the same
  sales in twice.
* **Rest-of-night planner** (`Planner`). With no cutover snapshot it returns
  the error "No cutover snapshot found for this store/date". Otherwise it
  spreads the waste target `round((30+40)/2) = 35` across the catalog by
  demand share. The share falls back to `1/count` when total demand is not
  positive. Each SKU's need (demand plus waste allowance minus on-hand,
  rounded up, never negative) becomes whole oven batches.

Modelling conventions:
* Dates are integer day numbers and timestamps are integer minutes; the
  cutover of day `d` is `d·1440 + 1170`.
* Estimates, α and shares are exact `real`s.
* `Math.round(x)` is `(x + 1/2).Floor` and `Math.ceil(x)` is `-((-x).Floor)`.
* The database tables are fields of `Engine.ForecastEngine`: a `seq` for the
  bake log and `map`s keyed by (store, date) or (store, SKU) for the others.
* A quantity missing from a snapshot, bake total or close map counts as 0.

The uniform `1/count` share applies whenever total demand is not positive
(the test `totalDemand > 0` fails), not only when it is exactly 0
(`Planner.Share`).

## Model

| member | source | states |
|---|---|---|
| JsMath.Round | src/server.ts:222-226 | `Math.round` lands within half a unit of its argument, rounding halves up |
| JsMath.Ceil | src/server.ts:227-228 | `Math.ceil` is the least integer not below its argument |
| JsMath.CeilDivBounds | src/server.ts:228-229 | `ceil(n/b)` blocks of `b` cover `n` by less than one block, and it is 0 exactly when `n` is 0 |
| JsMath.Max | src/server.ts:187 | `Math.max` of two integers is at least each argument and is one of them |
| Domain.Row | src/server.ts:189-192 | the stored forecast row for a (store, SKU) pair: present exactly when the table has the key, and then the stored row itself |
| Domain.Qty | src/server.ts:186 | a per-SKU quantity read with a default of 0: the stored value when the SKU has an entry, and non-zero only when it has one |
| Estimator.InWindow | src/server.ts:174-176 | a bake counts exactly when it is of the store, falls on the same calendar day, and is at or after 19:30 |
| Estimator.BakedSum | src/server.ts:172-176 | the reference per-SKU sum of in-window bake quantities; non-negative when every quantity is |
| Estimator.WindowIsHalfOpen | src/server.ts:171-179 | a bake at 19:30 or at 23:59 counts; one at 19:29 or at the next midnight does not; the window is 270 minutes long |
| Estimator.BakedTotals | src/server.ts:171-180 | the grouped post-cutover totals have an entry only for SKUs with at least one in-window bake of the store |
| Estimator.BakedSumAppend | src/server.ts:171-177 | the post-cutover sum of a concatenated log is the sum of the two parts |
| Estimator.OutsideEventsContributeNothing | src/server.ts:174-176 | bakes of other stores, other SKUs or outside [cutover, next day) never change a SKU's total |
| Estimator.BakedTotalsAgree | src/server.ts:171-180 | for every SKU, the grouped total (0 when absent) equals the reference sum over the in-window bakes |
| Estimator.SumPostCutover | src/server.ts:171-180 | one scan of the log builds exactly the grouped totals, and each SKU's entry equals its reference in-window sum |
| Estimator.SoldAfter | src/server.ts:186-187 | sales are never negative, never below `onHand + baked - leftover - waste`, and equal to it unless clamped to 0 |
| Estimator.Sold | src/server.ts:186-187 | the per-SKU sales signal, with absent SKUs read as 0, is non-negative |
| Estimator.Ewma | src/server.ts:193 | `α·sold + (1−α)·prev` moves the estimate from `prev` toward `sold` by the fraction α: α = 1 gives the sales, α = 0 keeps the estimate |
| Estimator.EwmaBetween | src/server.ts:193 | for α in [0,1] the smoothed value lies between the previous estimate and the observation |
| Estimator.SmoothStep | src/server.ts:189-200 | a missing row becomes (sold, n = 1, α = 0.35); an existing row keeps α, gets n + 1, and for α in [0,1] moves to a value between old estimate and sales; a steady estimate stays put |
| Estimator.Smoothed | src/server.ts:184-201 | after the per-SKU loop the rows are the old rows plus one row for every (store, SKU) of the loop |
| Estimator.SmoothedOutside | src/server.ts:184-201 | the loop leaves every row outside its (store, SKU) pairs unchanged, present or absent |
| Estimator.SmoothedAt | src/server.ts:184-201 | with distinct SKU ids, each SKU's row after the loop is exactly one smoothing step from its row before |
| Estimator.SmoothedKeepsSane | src/server.ts:189-200 | the loop keeps every row's α in [0,1] and estimate non-negative |
| Estimator.Rebuilt | src/server.ts:162-165 | the rebuild leaves all forecast rows unchanged when the cutover snapshot or the close record of (store, date) is missing |
| Estimator.DaySold | src/server.ts:186-187 | the day's sales of a SKU, computed from the reference bake sum, are non-negative and equal to what the rebuild computes from the grouped totals |
| Estimator.RebuildUpdatesEveryCatalogSku | src/server.ts:184-200 | with both records present, every catalog SKU of the store has a row afterwards: fresh (sales, 1, 0.35) or the old row smoothed with `max(0, onHand + in-window bakes - leftover - waste)`, n + 1, same α |
| Estimator.RebuildLeavesOtherRows | src/server.ts:184-200 | rows of other stores and of SKUs outside the catalog are untouched |
| Estimator.RebuildKeepsRowsSane | src/server.ts:189-200 | a rebuild preserves "α in [0,1] and estimate ≥ 0" for every row |
| Estimator.RebuildTwiceCountsTwice | src/server.ts:146-160 | rebuilding the same day again applies a second smoothing step to the same sales, so the rows differ from a single rebuild |
| Estimator.SteadyStateScenario | src/server.ts:171-199 | 20 on hand, 12 baked in window (a pre-cutover bake and another store's bake ignored), 5 left, 3 wasted gives 24 sold; an estimate of 24 stays 24 with n + 1 |
| Engine.ForecastEngine.RecordBake | src/server.ts:124-130 | a bake event is appended to the log |
| Engine.ForecastEngine.RecordCutover | src/server.ts:132-144 | the cutover snapshot of (store, date) is upserted, last write wins |
| Engine.ForecastEngine.RebuildForDay | src/server.ts:162-202 | the row-by-row loop leaves the forecast table equal to `Estimator.Rebuilt` of the old table, changes no other table, and keeps the invariant (well-formed catalog, sane rows) |
| Engine.ForecastEngine.CloseDay | src/server.ts:146-160 | the close record is upserted and the day is then rebuilt against the new record |
| Engine.ForecastEngine.PlanRestOfNight | src/server.ts:204-246 | the handler fails exactly when (store, date) has no snapshot and otherwise returns the planner's result over the current tables, with non-negative total demand |
| Engine.CloseTwice | src/server.ts:146-160 | closing a day twice after its cutover raises every catalog SKU's count by two |
| Planner.WasteTarget | src/server.ts:222 | the waste target is `Math.round` of the midpoint of the window [30, 40] declared at line 12, namely 35 |
| Planner.Demand | src/server.ts:214 | a SKU's demand is the stored row's estimate when the pair has a row, 0 when it has none (`coalesce(e.ewma, 0)`), and non-negative over sane rows |
| Planner.TotalDemand | src/server.ts:221 | the reduce of all demands; non-negative over sane rows |
| Planner.Share | src/server.ts:225 | with positive total demand, share × total is the SKU's demand; otherwise share × count is 1 |
| Planner.SumSuggest | src/server.ts:244 | the reduce of the lines' suggested units; non-negative when every line's is |
| Planner.Need | src/server.ts:227 | need is the least non-negative integer at least `demand + allocWaste - onHand` |
| Planner.BatchCount | src/server.ts:228 | the batch count is non-negative, its units cover the need by less than one batch, and it is 0 exactly when the need is 0 |
| Planner.Item | src/server.ts:224-241 | a plan line keeps id, on-hand and forecast; its allowance is within ½ of 35·share; its units are a multiple of the batch size covering need by less than one batch; ETA is batches × oven minutes |
| Planner.Items | src/server.ts:224-242 | one line per catalog SKU, in order, each built from that SKU's demand, on-hand and share |
| Planner.PlanRestOfNight | src/server.ts:204-246 | the error "No cutover snapshot …" exactly when the snapshot is missing; otherwise one line per SKU, total demand the sum of demands, total suggestion the sum of suggested units |
| Planner.ShareSumValue | src/server.ts:221-225 | shares times total demand add up to the demand of the lines (positive total), or shares times count add up to the line count (fallback) |
| Planner.SharesSumToOne | src/server.ts:221-225 | over the whole catalog the shares add up to exactly 1, with or without demand |
| Planner.DemandWithinTotal | src/server.ts:214-221 | with non-negative estimates, each SKU's demand lies between 0 and the total demand |
| Planner.ShareInUnitInterval | src/server.ts:225 | with non-negative estimates every share is in [0, 1] |
| Planner.PlanLine | src/server.ts:224-241 | line i of the plan is catalog SKU i's line, with its demand, on-hand and share |
| Planner.PlanLinesQuantized | src/server.ts:227-230 | every plan line suggests a multiple of its batch size, covering its need by less than one batch, no batch exactly when nothing is needed, ETA = batches × oven minutes |
| Planner.ZeroDemandSpreadsWasteEvenly | src/server.ts:225-226 | with no positive total demand every line uses share 1/count, so its allowance is within ½ of 35/count |
| Planner.AllocSumBounds | src/server.ts:226 | the rounded allowances of n lines sum to within n/2 of 35 × the sum of their shares |
| Planner.WasteAllocationNearTarget | src/server.ts:222-226 | the plan's allowances add up to 35 within half a unit per catalog SKU |
| Planner.SuggestCoversNeed | src/server.ts:227-229 | over any lines, suggested units cover the summed need and exceed it by less than the summed batch sizes |
| Planner.TotalSuggestCoversTotalNeed | src/server.ts:227-244 | the plan's total suggestion covers the total need and exceeds it by less than one batch per line |
| Planner.SingleSkuScenario | src/server.ts:221-245 | one SKU with batch 6, 16 minutes, demand 10 and 2 on hand: allowance 35, 8 batches, 48 units, 128 minutes |

## Left out

- HTTP plumbing (Fastify setup, CORS, routes, `listen`) is not modelled: it is transport only.
- The Postgres pool, SQL text and schema DDL are replaced by the object's `seq` and `map` fields.
- The seeding endpoints and default store/SKU lists are not modelled: they only load static data. The catalog is a constructor argument. It is assumed to have unique ids and positive batch sizes, as the seeded oven profiles do.
- Listing endpoints (`/stores`, `/skus`) are not modelled: they are plain reads.
- Request parsing and coercion (`Number(x || 0)`, `new Date(...)`, query defaults) are not modelled: the model takes validated integer maps, day numbers and minute timestamps.
- The `ts` columns of snapshots and close records are dropped because the core never reads them.
- Calendar and time-zone handling, including how Postgres compares a local `date + 19:30` with a `timestamptz`, is not modelled.
- IEEE-754 double rounding of estimates, α and shares is not modelled: exact reals stand in for doubles.
- Asynchronous interleaving and concurrent rebuilds are not modelled: the model is sequential.
- The plan's display fields (name, kind, oven temperature) and its echoed `cutover_time`/`waste_window` constants are left out.
- The planner's ordering by name is not modelled: the plan keeps catalog order.
- The rebuild also follows catalog order. With unique ids, no row's result depends on that order (`Estimator.SmoothedAt`).
- Planner.PlanRestOfNight: requires positive batch sizes. With a zero batch size the source would divide by zero and yield NaN or Infinity.
