# Shopkeeper price tracker: offline write queue, price form and dashboard analysis

This project models the core of the shopkeeper price tracker.

- **Offline write queue** (`src/lib/supabase.ts`). Price entries go into a
  queue held in memory and mirrored into the browser's storage slot
  `operationQueue`. The queue is drained head first into the remote
  `prices` table. A flag guards against overlapping drains. A drain stops at
  the first insert call that throws.
- **Submit handler** (`src/components/PriceForm.tsx`). It validates the form
  and builds the entry: guest shopkeeper id, today's date. Offline, it skips
  the direct insert and queues the entry; queuing starts a drain at once,
  which calls the remote insert. Online, it inserts directly and queues the
  entry when the insert fails.
- **Dashboard analysis** (`src/components/PriceDashboard.tsx`):
  - grouping the entries by supplier;
  - each supplier's mean price;
  - the least-squares slope of a supplier's prices against their position,
    with its rising, falling or stable label;
  - the chart series;
  - the low-price alerts.

Modules and files:

| file | module | models |
|---|---|---|
| `price_types.dfy` | `PriceTypes` | the row, the form and the insert payload of `src/types/supabase.ts` |
| `offline_queue.dfy` | `OfflineQueue` | the queue state as the class `WriteQueue`; the drain loop specified by the function `DrainPass` |
| `price_form.dfy` | `PriceFormModel` | the form state as the class `PriceForm`; its `HandleSubmit` runs over a shared `WriteQueue` |
| `price_trend.dfy` | `PriceTrend` | `predictTrend` as exact sums over reals, and the trend label |
| `price_dashboard.dfy` | `PriceDashboard` | the grouping fold, `averagePrices`, `priceAlerts`, the analysis rows and the chart series |

The remote store, the clock and the connectivity flag are parameters:

- `reply: nat -> Outcome` gives the outcome of the k-th insert call of a
  drain pass.
- An insert call ends in one of three ways:
  - `Ok`: it resolves without an error;
  - `ReturnedError`: it resolves with an `{error}` object;
  - `Thrown`: it throws.
- `HandleSubmit` takes `navigator.onLine`, the current `toISOString` text,
  the outcome of its direct insert, and the drain oracle.
- The ghost field `WriteQueue.remoteCalls` records every insert call made,
  in order. Delivery properties are stated against that log.

Prices are exact reals. Each recursive sum of the regression is a fold:

- `SumY`: the prices;
- `SumX`: the positions;
- `SumXY`: each position times its price;
- `SumXX`: each position squared.

`Times(k, y)` is `k`-fold addition; `TimesIsProduct` proves it equal to
`k * y`. The alert test `price < avg * 0.8` is proved equal to the
division-free test `5 * price * count < 4 * sum` over the entry's own
supplier group.

Two behaviours of the code worth stating on their own:

- The trend label uses the supplier's whole group
  (`src/components/PriceDashboard.tsx:151`); `slice(-10)` at line 54 affects
  only the chart series (see `PriceDashboard.TrendUsesWholeGroup`).
- Unparsable saved text makes `JSON.parse` at `src/lib/supabase.ts:63` throw
  out of module start-up; it is not read as an empty queue. `LoadQueue`
  returns `ParseFailure` and changes nothing.

## Model

| member | source | states |
|---|---|---|
| OfflineQueue.WriteQueue.constructor | src/lib/supabase.ts:25-26 | The module starts with an empty queue, the processing flag cleared, no calls made, and the storage slot as it was found. |
| OfflineQueue.WriteQueue.Insert | src/lib/supabase.ts:44 | One remote insert: it returns the oracle's outcome, appends exactly that call to the call log and changes no queue state. |
| OfflineQueue.WriteQueue.ProcessQueue | src/lib/supabase.ts:34-57 | If a pass is running or the queue is empty, nothing changes. Otherwise the queue becomes what `DrainPass` leaves, the log grows by exactly that pass's calls, the flag ends cleared, and the slot holds the remaining queue once at least one entry was shifted. Storage kept in sync stays in sync. |
| OfflineQueue.WriteQueue.AddToQueue | src/lib/supabase.ts:28-32 | The operation is appended at the tail, the snapshot is saved, and then one `processQueue` runs on the extended queue. Afterwards the slot mirrors the queue. |
| OfflineQueue.WriteQueue.LoadQueue | src/lib/supabase.ts:60-66 | Absent slot: no operations and no change. Unreadable slot: the parse failure escapes and nothing changes. Saved slot: its operations are appended in saved order and a drain of the combined queue runs. |
| OfflineQueue.Restart | src/lib/supabase.ts:59-68 | A fresh module restored from storage that was in sync continues exactly as a drain of the old backlog: its queue and call log are what that drain leaves, its slot mirrors its queue again and the flag is down, so restarts can be chained. If the first call throws while the head is an insert, the backlog comes back unchanged. |
| OfflineQueue.RestartTwice | src/lib/supabase.ts:59-68 | A second restart resumes from exactly what the first restart's drain left; the slot stays in sync and the flag down. |
| OfflineQueue.DrainLeavesSuffix | src/lib/supabase.ts:39-54 | What a drain pass leaves is a suffix of the queue it started from, so the order is kept. |
| OfflineQueue.DrainIsFifo | src/lib/supabase.ts:39-54 | The calls of a pass carry exactly the insert payloads of the removed prefix, in queue order. If the pass stopped early, one more call follows: the head that threw. |
| OfflineQueue.DrainRepliesInOrder | src/lib/supabase.ts:39-45 | The i-th insert call of a pass receives the i-th outcome: calls are made one at a time, in order. |
| OfflineQueue.DrainStopsAtFirstThrow | src/lib/supabase.ts:50-53 | A pass ends with entries left exactly when a call threw. The head left is an insert, its call is the last one, and no earlier call threw. A pass that empties the queue met no throw. |
| OfflineQueue.DrainWithoutThrowSendsAll | src/lib/supabase.ts:39-54 | When no call throws, the pass empties the queue and sends every queued insert once, in submission order. |
| OfflineQueue.DrainAllOkWritesAll | src/lib/supabase.ts:39-54 | When every call resolves without an error, the pass empties the queue and writes a row for every queued insert, in submission order. |
| OfflineQueue.HeadOfLineBlocking | src/lib/supabase.ts:50-53 | Suppose the insert at position j is the first whose call throws. Then the pass leaves `q[j..]` and makes no call for any later entry. |
| OfflineQueue.BlockedHeadKeepsQueue | src/lib/supabase.ts:50-53 | A head insert that throws leaves the whole queue in place after exactly one call. This is the one-step case of `HeadOfLineBlocking`, used by `Restart`. |
| OfflineQueue.ReturnedErrorDropsEntry | src/lib/supabase.ts:43-48 | As written: an insert that resolves with `{error}` is shifted off the queue although no row was written. |
| OfflineQueue.ConfirmedDrainLosesNothing | src/lib/supabase.ts:47-48 | With the drain that shifts only confirmed writes, what remains is a suffix of the queue. The rows written are exactly the inserts removed, in queue order. |
| PriceFormModel.DatePart | src/components/PriceForm.tsx:45 | `split('T')[0]` returns the longest prefix free of `T`. It ends at the first `T`, or at the end of the text. |
| PriceFormModel.DatePartUnique | src/components/PriceForm.tsx:45 | Any prefix that is free of `T` and ends at a `T` or at the end of the text is the result of `DatePart`. |
| PriceFormModel.DatePartOfTimestamp | src/components/PriceForm.tsx:45 | For every timestamp made of a day free of `T`, a `T` and any time text (the form `toISOString` produces), the date part is exactly that day. |
| PriceFormModel.EntryKeepsForm | src/components/PriceForm.tsx:42-46 | The submitted entry carries the form fields unchanged (`FormOf` recovers them), the `guest` shopkeeper id and the date. |
| PriceFormModel.PriceForm.constructor | src/components/PriceForm.tsx:16-21 | The form starts with empty names, a price of 0 and the submitting flag cleared. |
| PriceFormModel.PriceForm.HandleSubmit | src/components/PriceForm.tsx:32-78 | An invalid form (empty item name, empty supplier, or price <= 0) is rejected and nothing changes. Offline, the entry is queued and drained, the form is reset and `onSuccess` is called. Online with a confirmed insert, the direct call is logged, the queue is untouched and the form is reset. Online with a returned error or a throw, the entry is queued after the failed call and the form is kept. In every valid case, `isSubmitting` ends false. |
| PriceFormModel.QueuedSubmissionIsSent | src/components/PriceForm.tsx:71-77 | In a drain that meets no throw, a submission that went to the queue is sent as the last call, after every insert queued before it, and the drain leaves nothing behind. An `{error}` reply still counts as sent, though no row is written. |
| PriceFormModel.QueuedSubmissionIsStored | src/components/PriceForm.tsx:71-77 | In a drain whose calls all resolve without an error, a submission that went to the queue is written last, after the rows of every insert queued before it, and the queue ends empty. |
| PriceTrend.PredictTrend | src/components/PriceDashboard.tsx:67-81 | Fewer than two prices give slope 0. Otherwise the slope times `n*sumXX - sumX^2` equals `n*sumXY - sumX*sumY`. |
| PriceTrend.SumXClosed | src/components/PriceDashboard.tsx:74 | The sum of the positions 0..n-1 is n(n-1)/2. |
| PriceTrend.SumXXClosed | src/components/PriceDashboard.tsx:77 | The sum of the squared positions is (n-1)n(2n-1)/6. |
| PriceTrend.DenominatorPositive | src/components/PriceDashboard.tsx:79 | For two or more prices, the denominator of the slope is positive: the division is never by zero. |
| PriceTrend.SlopeSign | src/components/PriceDashboard.tsx:79 | For two or more prices, the slope is positive, negative or zero exactly when the numerator is. |
| PriceTrend.ConstantTrend | src/components/PriceDashboard.tsx:67-81 | Equal prices give slope 0. |
| PriceTrend.RisingNumerator | src/components/PriceDashboard.tsx:76-79 | For non-decreasing prices the numerator is non-negative. It is positive when the last price is above the first. |
| PriceTrend.RisingTrend | src/components/PriceDashboard.tsx:67-81 | Non-decreasing prices whose last is above their first give a positive slope. |
| PriceTrend.NegateNumerator | src/components/PriceDashboard.tsx:76-79 | Negating every price negates the numerator. |
| PriceTrend.OppositeTrend | src/components/PriceDashboard.tsx:79 | Two equally long price lists with opposite numerators have opposite slopes. |
| PriceTrend.FallingTrend | src/components/PriceDashboard.tsx:67-81 | Non-increasing prices whose last is below their first give a negative slope. |
| PriceTrend.ReverseNumerator | src/components/PriceDashboard.tsx:76-79 | Reading the prices in reverse order negates the numerator. |
| PriceTrend.ReverseTrend | src/components/PriceDashboard.tsx:67-81 | Reading the prices in reverse order negates the slope. |
| PriceTrend.TrendLabel | src/components/PriceDashboard.tsx:160 | The label is Rising exactly for a positive slope, Falling exactly for a negative one, and Stable exactly for 0. |
| PriceTrend.TrendLabels | src/components/PriceDashboard.tsx:160 | Fewer than two prices, or all prices equal, are labelled Stable. Non-decreasing prices ending above their start are Rising. Non-increasing prices ending below their start are Falling. |
| PriceTrend.RisingExample | src/components/PriceDashboard.tsx:67-81 | Prices 10, 12, 14 have slope exactly 2 and are labelled Rising. |
| PriceDashboard.AddEntry | src/components/PriceDashboard.tsx:34-37 | A new supplier becomes the last key with its entry alone. A known supplier gets the entry pushed onto its array. No other supplier's array changes. |
| PriceDashboard.AddEntryWellFormed | src/components/PriceDashboard.tsx:34-37 | One step of the reduce keeps the keys distinct and equal to the object's properties. |
| PriceDashboard.GroupBySupplierPartition | src/components/PriceDashboard.tsx:33-39 | The grouping partitions the entries by supplier. Every entry's supplier is a key, the keys are distinct, and each key's array is exactly that supplier's entries, in list order, never empty. |
| PriceDashboard.GroupBySupplierSize | src/components/PriceDashboard.tsx:33-39 | The arrays together hold exactly as many entries as the list: none lost and none duplicated. |
| PriceDashboard.GroupKeyOrder | src/components/PriceDashboard.tsx:33-42 | The keys that `Object.entries` walks are exactly the suppliers of the list, in the order of their first entries. |
| PriceDashboard.AveragePrices | src/components/PriceDashboard.tsx:42-45 | There is one element per key, in key order. Each element's mean is the mean of that supplier's entries, a group that is never empty, so no division by zero. |
| PriceDashboard.MeanTimesCount | src/components/PriceDashboard.tsx:43 | The mean times the number of entries is the sum of their prices. |
| PriceDashboard.FindAverageAt | src/components/PriceDashboard.tsx:86 | `find` returns the mean of the first element with the supplier. |
| PriceDashboard.FindAverageMissing | src/components/PriceDashboard.tsx:86 | A supplier with no element of `averagePrices` reads as 0. |
| PriceDashboard.AverageOfEntry | src/components/PriceDashboard.tsx:86 | For an entry of the list, the mean looked up is the mean of its own supplier's entries. |
| PriceDashboard.BelowMean | src/components/PriceDashboard.tsx:87 | Against its own group's mean, `price < avg * 0.8` holds exactly when `5 * price * count < 4 * sum`. |
| PriceDashboard.AlertTestMatchesReference | src/components/PriceDashboard.tsx:85-88 | For an entry of the list, the alert test holds exactly when the division-free test against its own supplier holds. |
| PriceDashboard.AlertFilterMatches | src/components/PriceDashboard.tsx:84-88 | The filter keeps exactly the entries that pass the division-free test, in order. |
| PriceDashboard.QualifyingIsSubsequence | src/components/PriceDashboard.tsx:84-88 | The entries kept form a subsequence of the list, and every one passes the test. |
| PriceDashboard.PrefixIsSubsequence | src/components/PriceDashboard.tsx:89 | A prefix of a subsequence is a subsequence, so the cut to three keeps the order. |
| PriceDashboard.PriceAlerts | src/components/PriceDashboard.tsx:84-89 | There are at most three alerts. |
| PriceDashboard.PriceAlertsSpec | src/components/PriceDashboard.tsx:84-89 | The alerts are exactly the first min(3, k) of the k entries more than 20% below their own supplier's mean. They form a subsequence of the entries and each one passes the test. |
| PriceDashboard.SupplierAnalysis | src/components/PriceDashboard.tsx:150-151 | There is one row per element of `averagePrices`, with its supplier and mean. The trend is the label of the slope over all of that supplier's entries, in list order. |
| PriceDashboard.ChartSeries | src/components/PriceDashboard.tsx:54 | The series holds the prices of the last min(10, n) entries of the group, in order. |
| PriceDashboard.TrendUsesWholeGroup | src/components/PriceDashboard.tsx:151 | The trend and the chart read different windows. For a lower price followed by ten equal ones, the ten the chart draws have slope 0, while the trend over the whole group is Rising. |
| PriceDashboard.NewestFirstRisingShowsFalling | src/App.tsx:54 | As written: prices that rose over time arrive newest first and are labelled Falling. |
| PriceDashboard.NewestFirstExample | src/App.tsx:54 | Prices 10, 12, 14 entered in that order arrive as 14, 12, 10 and are labelled Falling. |
| PriceDashboard.ChronologicalTrendSpec | src/components/PriceDashboard.tsx:151 | Taken in time order, a newest-first group gets the label of the opposite slope. Prices that rose over time are labelled Rising, and prices that fell are labelled Falling. |

## Left out

- Asynchrony. `processQueue` is `async` and returns to its caller at its first `await`. The model runs each drain to completion inside the call that starts it. Interleavings of a drain with a later `addToQueue` or a submission are not modelled. The `isProcessingQueue` guard is modelled as observed at the start of a call.
- The `online` event listener (`src/lib/supabase.ts:71`). Registering a callback is not modelled; an `online` event is a call of `ProcessQueue`.
- Browser storage. Quota errors from `localStorage.setItem` are not modelled. JSON text is abstracted to a slot that is absent, holds a readable list of operations, or is unparsable. An empty saved string counts as absent, as the `if (saved)` test makes it.
- The supabase client setup and its environment check (`src/lib/supabase.ts:1-22`), and `fetchEntries` in `src/App.tsx`. These are I/O. Only the ordering that `fetchEntries` requests is used, in the second finding.
- Floating point. Prices are exact reals, so rounding in the sums and in the slope is not modelled. `NaN` from `parseFloat` is not modelled.
- `PriceFormModel.PriceForm.HandleSubmit`: `handleChange` (`src/components/PriceForm.tsx:23-30`) is not modelled. The form is set directly, and the price is a real.
- `PriceFormModel.PriceForm.HandleSubmit`: toasts, the cha-ching sound, console output and `preventDefault` are not modelled. They change no state the model keeps. A failed `play()` is caught inside the handler, so it does not affect the outcome.
- Rendering. The chart labels (`format(...)` of the last ten entries), the colours, `toFixed(2)` and the layout are presentation only.
- `PriceDashboard.GroupKeyOrder`: it states insertion order for every supplier name. JavaScript objects list integer-like keys (such as `"42"`) first, in numeric order, which the model does not capture. For a supplier name that is an inherited property of a plain object (`constructor`, `toString`, `__proto__` and the like), `acc[entry.supplier]` at `src/components/PriceDashboard.tsx:34` is the inherited value, so no array is created and the `.push` at line 37 throws a `TypeError`; the dashboard then fails to render. The model treats every supplier name as an ordinary key and so does not capture that failure.
- `src/components/PriceTable.tsx` is not part of this model.

## Findings

| source | as written | input that shows it | evidently intended | confidence | as-written member | corrected member |
|---|---|---|---|---|---|---|
| src/lib/supabase.ts:43-48 | The drain awaits `insert` but never looks at its `{error}` result. An entry whose insert resolves with an error is shifted off and the snapshot re-saved, so the price is lost. | a queue of one insert whose call resolves with `{error}` (e.g. a rejected row) | "Remove from queue if successful": shift only when the insert reports no error, and otherwise keep the entry and stop | not executed | OfflineQueue.ReturnedErrorDropsEntry | OfflineQueue.ConfirmedDrainLosesNothing |
| src/App.tsx:54 | The entries reach the dashboard ordered by `created_at` descending, and `predictTrend` regresses each price on its position in that list. Position 0 is the newest entry, so the slope has the opposite sign to the price movement over time. | one supplier's prices 10, 12, 14 entered in that order arrive as 14, 12, 10 and are labelled Falling | the trend of prices over time: entries in chronological order, so rising prices are labelled Rising | not executed | PriceDashboard.NewestFirstRisingShowsFalling | PriceDashboard.ChronologicalTrendSpec |
