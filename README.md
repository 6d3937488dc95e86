# HealthSense ingestion and query bookkeeping, in Dafny

HealthSense receives vital-sign readings from wearable devices (or from a
manual entry form). It scores each reading with three risk models and raises
alerts, then serves the readings back through a small JSON API. This project
models the bookkeeping behind that API:

- the three record types (`HealthData`, `Prediction`, `Alert`), their
  constructors and their `to_dict` serialisers (models.py);
- the ingestion pipeline shared by `receive_health_data` and `manual_entry`
  (views.py). It builds a reading with defaults for missing fields, scores it,
  builds one alert per rule that fires, adds everything to the durable store,
  and appends each item to a capped transitional cache (1000 readings, 1000
  predictions, 100 alerts; the oldest entry is dropped on overflow). It then
  commits and broadcasts the cached alerts of the new reading;
- the four query handlers, which merge the durable store with the caches:
  latest reading, history since a cutoff, the alert listing, and
  acknowledgement of an alert;
- the JSON replies those handlers send.

Modules, in dependency order:

| file | module | contents |
|---|---|---|
| timestamps.dfy | `Timestamps` | ISO timestamps compared as strings; proofs that the order is total |
| fifo.dfy | `Fifo` | one capped append (`Push`), the window it keeps (`Window`), proofs that they agree, and what a filter of the window by the appended entries leaves |
| lists.dfy | `Lists` | order-preserving filtering, Python's `s[start:]` |
| models.dfy | `Models` | the records, the JSON values, `to_dict` and its inverse, and the `Alert` class with its mutable `acknowledged` flag |
| sorting.dfy | `Sorting` | the stable sort by timestamp used by the history handler |
| store.dfy | `Store` | the durable store's tables as sequences of rows, and the queries the handlers issue |
| queries.dfy | `Queries` | what the history and alert-listing handlers answer, as functions, with the properties of the answers |
| views.dfy | `Views` | class `Server`: the caches, the store and the identifier generator, plus one method per handler |
| responses.dfy | `Responses` | status codes and JSON payloads of the API handlers |

Design choices:

- **The caches and the store.** The process-wide state is the class
  `Views.Server`. Its fields are the three caches and the three store tables.
  Ingestion appends to a cache and drops its head exactly as the source does.
  Each such method is proved to leave the cache equal to `Fifo.Push` of the
  old cache, and `Fifo.PushAllIsWindow` shows that a cache fed this way always
  holds the newest `cap` entries of everything appended to it.
- **Alerts have identity.** An acknowledgement sets `acknowledged` on a
  cached `Alert` object in place, so `Models.Alert` is a class. Its value
  (`View`) is a `Models.AlertRecord`.
- **The store holds value rows.** The store is an abstract sequence of rows
  per table. A stored alert is an `AlertRecord` value, not the cached object.
- **Identifiers.** `uuid.uuid4()` becomes an injective generator
  `uuid: nat -> string` with a counter of identifiers issued. Identifiers are
  therefore never reused (`Views.Server.NextId`).
- **Analytics.** The three risk models and the alert rules are function
  values fixed at start-up (`Views.Analytics`).
- **Other inputs.** The clock (`now`), the history cutoff and the outcome of
  `db.session.commit()` (`commitOk`) are parameters.
- **Commit order.** The code appends to the caches before it commits
  (views.py:148 against views.py:196). The model keeps that order. A failed
  commit therefore leaves the caches holding a reading, a prediction and
  alerts that the store never committed; `Views.Server.Ingests` states this.

## Model

| member | source | states |
|---|---|---|
| Timestamps.Le | views.py:281-294 | definition of the timestamp comparison of views.py:281, 285 and 294 (Python's code-point string order); LeReflexive, LeTotal, LeAntisymmetric and LeTransitive state that it is a total order |
| Timestamps.LeReflexive | views.py:281 | every timestamp is at or after itself |
| Timestamps.LeTotal | views.py:294 | any two timestamps are ordered one way or the other |
| Timestamps.LeAntisymmetric | views.py:294 | two timestamps ordered both ways are equal |
| Timestamps.LeTransitive | views.py:281-294 | the timestamp order is transitive |
| Timestamps.NotLeIsGreater | views.py:224 | if a is not at or before b, then b is strictly before a |
| Fifo.Window | views.py:148-150 | definition of what a capped cache should hold, the newest `cap` entries of everything appended to it; PushWithinCap, PushOntoWindow, PushAllIsWindow and PushAllBounded relate it to the appends |
| Fifo.Push | views.py:148-150 | from a cache within its cap, one append stays within the cap and ends with the new entry |
| Fifo.PushWithinCap | views.py:148-150 | below the cap an append keeps everything; at the cap it drops exactly the oldest entry and keeps the rest in order; either way the result is the window of the extended history |
| Fifo.WindowAppend | views.py:191-193 | trimming before or after an append gives the same window |
| Fifo.PushOntoWindow | views.py:191-193 | a capped append to the window of a history is the window of the history extended by the entry |
| Fifo.PushAll | views.py:180-193 | definition of the alert loop of one ingestion as a run of capped appends; PushAllIsWindow and PushAllBounded state what it leaves |
| Fifo.PushAllIsWindow | views.py:180-193 | a run of capped appends, the alert loop of one ingestion included, leaves exactly the newest `cap` entries of everything appended |
| Fifo.WindowOfWindow | views.py:191-193 | trimming in the middle of a run of appends does not change the final window |
| Fifo.PushAllBounded | views.py:191-193 | after any run of appends the cache holds min(old + new, cap) entries; the appended entries are its tail, or the newest `cap` of them on overflow |
| Fifo.FilterWindow | views.py:191-202 | filtering a capped window by a test that only the appended entries pass leaves the window of the appended entries: the newest of them that fit |
| Lists.Filter | views.py:238 | the filtered list is no longer than the list, and every element passes the test |
| Lists.FilterMembers | views.py:285 | the filtered list holds elements of the list only, and every element that passes is kept |
| Lists.FilterAppend | views.py:285 | filtering distributes over concatenation |
| Lists.FilterKeepsAll | views.py:285 | filtering with a test every element passes changes nothing |
| Lists.FilterDropsAll | views.py:202 | filtering with a test no element passes leaves nothing |
| Lists.FilterSnoc | views.py:289-291 | filtering one more element at the end appends it exactly when it passes |
| Lists.SliceOfAppend | views.py:191-202 | a suffix of a concatenation (the alert cache after the new alerts are appended) is a suffix of the first part followed by the second, or a suffix of the second |
| Lists.SliceFrom | views.py:297 | Python's `s[start:]` is always a suffix, of length `len(s) - start` for start in range, of `-start` (clipped) for a negative start, and 0 beyond the end |
| Models.GetOr | views.py:135-141 | definition of `data.get(key, default)` on an optional field; Views.ApiFields and Views.FormFields state the defaults it supplies |
| Models.OrNow | models.py:15 | a supplied non-empty timestamp is kept; a missing or empty one becomes the current time |
| Models.NewHealthData | models.py:6-15 | a new reading carries the fresh identifier and the given device and vitals; a supplied non-empty timestamp is kept, a missing or empty one becomes the current time |
| Models.HealthDataToDict | models.py:17-27 | the dictionary has exactly the eight keys id, device_id, glucose, bp_systolic, bp_diastolic, spo2, heart_rate, timestamp |
| Models.HealthDataDictRoundTrip | models.py:17-27 | reading the dictionary back gives the same reading: every field is carried unchanged |
| Models.NewPrediction | models.py:31-38 | a new prediction carries the fresh identifier, the reading id and the three risks; a supplied non-empty timestamp is kept, a missing or empty one becomes the current time |
| Models.PredictionToDict | models.py:40-48 | the dictionary has exactly the keys id, health_data_id, the three risks and timestamp |
| Models.PredictionDictRoundTrip | models.py:40-48 | reading the dictionary back gives the same prediction |
| Models.AlertRecordToDict | models.py:65-74 | the dictionary has exactly the seven keys id, health_data_id, message, condition, severity, timestamp, acknowledged |
| Models.AlertDictRoundTrip | models.py:65-74 | reading the dictionary back gives the same alert state |
| Models.Alert.constructor | models.py:56-63 | a new alert carries the given reading id, message, condition and severity, the timestamp rule of models.py:62, and is not acknowledged |
| Models.Alert.ToDict | models.py:65-74 | the dictionary reports the alert's current state, including the flag as it is now |
| Models.AlertViews | views.py:202 | the records of a list of alerts, one per alert, in order |
| Sorting.Insert | views.py:294 | inserting adds exactly the one element (as a multiset) |
| Sorting.SortByTime | views.py:294 | the sort is a permutation of its input |
| Sorting.LowerBoundCarries | views.py:281-294 | a lower bound on every timestamp of a list holds for any permutation of it |
| Sorting.InsertSorted | views.py:294 | inserting into a list in timestamp order keeps it in order |
| Sorting.SortByTimeSorted | views.py:294 | the sort's output is in ascending timestamp order |
| Sorting.SortByTimeOfSorted | views.py:294 | a list already in timestamp order is left as it is |
| Sorting.SortByTimeStable | views.py:294 | the sort is stable: for every timestamp, the readings with that timestamp come out in the order they went in |
| Sorting.InsertStable | views.py:294 | inserting into an ordered list places the new reading after every reading with the same timestamp and keeps their order |
| Sorting.ConsStable | views.py:294 | the insertion step past the head: the same head in front of both sides keeps the tie order |
| Sorting.InsertStableInFront | views.py:294 | the insertion step in front of an ordered list whose head is later: the tie order is the same as if the reading had been appended, since no reading of the list ties with it |
| Sorting.SortedRestLater | views.py:294 | in an ordered list, no reading from the first one later than x onwards has x's timestamp |
| Sorting.SortedTail | views.py:294 | the tail of an ordered list is ordered |
| Sorting.PrefixOldest | views.py:281 | a prefix of an ordered list is drawn from it, and nothing it leaves out is earlier than anything it keeps |
| Sorting.InsertAtEnd | views.py:294 | an element no earlier than all others is inserted at the end |
| Store.LatestReading | views.py:224 | None exactly when the table is empty; otherwise a row of the table whose timestamp is at or after every row's |
| Store.FindAlert | views.py:331 | None exactly when no row has the id; otherwise the position of the first row with it |
| Store.FindAlertIgnoresFlags | views.py:331-333 | the lookup depends on the identifiers only, so setting a flag does not move it |
| Store.MarkAcknowledged | views.py:331-334 | acknowledging keeps every row's identifier and the number of rows |
| Store.MarkAcknowledgedEffect | views.py:331-334 | only the found row changes, and only its flag, which becomes true; with no match nothing changes |
| Store.MarkAcknowledgedIdempotent | views.py:331-334 | acknowledging an alert twice is the same as once |
| Store.Limit | views.py:281 | SQL LIMIT keeps a prefix of at most `limit` rows; a negative limit keeps all |
| Store.Since | views.py:281-285 | definition of the cutoff test `timestamp >= cutoff`, applied to the store's rows (views.py:281) and to the cache (views.py:285); Store.ReadingsSince, Queries.MergedHistoryMembers and Queries.MergedHistoryComplete state what passes it |
| Store.ReadingsSince | views.py:281 | the store's history query returns rows of the table, all at or after the cutoff, in ascending timestamp order; exactly `limit` of them when more match, all matching rows otherwise (every matching row when the limit is negative) |
| Store.ReadingsSinceOldest | views.py:281 | the answer is a sub-multiset of the matching rows, and every matching row left out is no earlier than every row returned: the oldest `limit` matching rows |
| Store.AlertsWithFlag | views.py:371 | the query returns exactly the alert rows with the requested flag |
| Store.AlertsOf | views.py:249 | the query returns exactly the alert rows linked to the reading |
| Queries.FirstPredictionFor | views.py:245 | None exactly when no prediction is linked to the reading; otherwise the first linked one |
| Queries.LastPredictionFor | views.py:231-235 | None exactly when no cached prediction is linked to the reading; otherwise the most recently cached linked one |
| Queries.LinkedPrediction | views.py:300-310 | the prediction reported for a reading is linked to it and comes from the store or the cache; a store match always wins; None only when neither has one |
| Queries.EffectiveLimit | views.py:275 | the limit is never above 1000, and equals the requested limit (100 by default) when that is not above 1000 |
| Queries.MergedHistory | views.py:281-291 | definition of `all_data` before the sort: the store's answer, then the cached readings since the cutoff whose id it lacks; MergedHistoryMembers, MergedHistoryComplete and HistoryNoStoreDuplicates state its properties |
| Queries.HistoryData | views.py:294-297 | definition of the `data` list: the merge sorted by timestamp, then `all_data[-limit:]` when `limit < len(all_data)`; HistoryOrdered, HistoryNewest, HistoryNegativeLimit and HistoryZeroLimit state its properties |
| Queries.MergedHistoryMembers | views.py:281-291 | every merged reading is at or after the cutoff and comes from the store or the cache |
| Queries.HistoryOrdered | views.py:281-297 | the history is in ascending timestamp order, and every entry is at or after the cutoff and comes from the store or the cache |
| Queries.SuffixOfPermutation | views.py:294-297 | a suffix of a rearrangement of the merge keeps the merge's bounds: every entry is at or after the cutoff and comes from the store or the cache |
| Queries.HistoryNewest | views.py:294-297 | with a positive limit the history has min(limit, merged) entries and is a suffix of the sorted merge |
| Queries.HistoryNegativeLimit | views.py:275-297 | a negative limit places no bound in the store, and the slice then drops the -limit oldest entries |
| Queries.HistoryZeroLimit | views.py:275-297 | with limit 0 the store contributes nothing and `all_data[-0:]` keeps everything: the history is every cached reading since the cutoff, sorted |
| Queries.MergedHistoryComplete | views.py:281-291 | the merge keeps the store's answer whole in front and contains every cached reading at or after the cutoff whose id the store's answer lacks |
| Queries.HistoryNoStoreDuplicates | views.py:287-291 | the store's answer comes first, unchanged; a cached reading is added only if the store's answer has no reading with its id |
| Queries.MergeAlerts | views.py:371-379 | definition of the alert listing: the store's alerts with the flag, then each cached alert with the flag whose id is not yet listed; MergeAlertsSpec and MergeAlertsFlag state its properties |
| Queries.MergeAlertsSpec | views.py:368-379 | store alerts stay in front unchanged; only cached alerts with the requested flag are added; no appended alert repeats an id already listed; every cached alert with the flag has its id in the listing |
| Queries.MergeAlertsFlag | views.py:371-379 | every alert in the listing has the requested acknowledged flag |
| Views.ApiFields | views.py:134-141 | a missing device_id becomes "unknown", a missing vital 0, and a missing or empty timestamp the current time |
| Views.FormFields | views.py:35-43 | a missing form device_id becomes "MANUAL", a missing vital 0, and the timestamp is always the current time |
| Views.ReadingOf | views.py:134-142 | the pipeline's reading carries the fresh identifier and the handler's fields, with the timestamp rule of models.py:15 |
| Views.Score | views.py:153-168 | the prediction gets its own identifier, is linked to the reading's id and is stamped with the current time |
| Views.NewAlertRecord | views.py:181-186 | a new alert record carries the fresh identifier, the reading's id, the candidate's message, condition and severity, the current time, and is not acknowledged |
| Views.SurvivingNewAlerts | views.py:191-202 | the broadcast list of cached alerts linked to the new reading is exactly the newest of the alerts just created that fit in the alert cache |
| Views.Server.constructor | app.py:23-25 | the three caches start empty; the store holds what it held |
| Views.Server.NextId | models.py:8 | each identifier is new: it was never issued before, and the set of issued identifiers grows by exactly it |
| Views.Server.RaiseAlert | views.py:180-193 | one new, unacknowledged alert linked to the reading, with the next identifier, appended to the alert cache with the pop(0) on overflow |
| Views.Server.RaiseAlerts | views.py:180-194 | one new alert per candidate, in order, with consecutive identifiers; the alert cache is the newest 100 of the old cache plus the new alerts |
| Views.Server.Stage | views.py:145-194 | the reading, its prediction and its alerts get the next identifiers in that order; each cache is appended to with its cap; the new reading's id is on no older cached alert |
| Views.Server.PushReading | views.py:148-150 | the readings cache after the append is the capped append of the reading |
| Views.Server.PushPrediction | views.py:174-176 | the predictions cache after the append is the capped append of the prediction |
| Views.Server.Commit | views.py:196 | the reading, the prediction and the alert rows become visible in the store together |
| Views.Server.Ingests | views.py:145-203 | definition of what one ingestion leaves behind (identifiers in order, capped appends, the store changed only on a successful commit, the broadcast equal to the window of the new alerts); Views.Server.Process, ReceiveHealthData and ManualEntry ensure it |
| Views.Server.Process | views.py:145-203 | the whole pipeline: caches appended before the commit; the store gains the three kinds of rows only on a successful commit; the prediction and every alert are linked to the new reading; the broadcast lists exactly the surviving new alerts |
| Views.Server.ReceiveHealthData | views.py:128-217 | a body that is not a JSON object fails with nothing changed; otherwise the pipeline runs on the fields with the API defaults |
| Views.Server.ManualEntry | views.py:31-118 | the pipeline runs on the form fields with the form defaults and the current time |
| Views.Server.LastCachedPrediction | views.py:231-235 | the reverse scan finds the most recently cached prediction of the reading |
| Views.Server.GetLatest | views.py:221-253 | no data exactly when store and cache are both empty; with a stored reading, the one with the greatest timestamp and its stored prediction and alerts; otherwise the last cached reading with its most recent cached prediction and all its cached alerts |
| Views.Server.FirstCachedPrediction | views.py:306-310 | the forward scan finds the first cached prediction of the reading |
| Views.Server.GetHistory | views.py:271-316 | the listing is the history function of the store and cache; the predictions map has an entry exactly for each listed reading with a linked prediction, and it is that prediction |
| Views.Server.HistoryListing | views.py:275-297 | the listing the handler builds is the history function of the store and the cache |
| Views.Server.MergeCached | views.py:288-291 | the merge loop yields the store's answer followed by the cached readings whose id it lacks, in cache order |
| Views.Server.LinkPredictions | views.py:299-310 | the map holds, for each listed reading that has one, its store prediction or else its first cached one |
| Views.Server.GetAlerts | views.py:365-387 | the listing is the alert merge of the store's alerts with the flag and the cache, and every entry has the requested flag |
| Views.Server.Acknowledge | views.py:328-354 | a store hit flags only that row and commits (on a failed commit nothing changes); otherwise only the first cached alert with the id is flagged; with neither the reply is not-found and nothing changes |
| Views.Server.AcknowledgeStored | views.py:331-339 | the found row is flagged and returned on a successful commit; nothing changes otherwise |
| Views.Server.AcknowledgeCached | views.py:340-354 | only the first cached alert with the id is flagged and returned; not found exactly when no cached alert has the id |
| Views.Server.SetAcknowledged | views.py:344 | the cached alert at the position is flagged; every other cached alert keeps its state |
| Views.Server.FindCachedAlert | views.py:341-343 | the position of the first cached alert with the id, or None |
| Responses.AlertList | views.py:372 | every alert dictionary in the list reads back as the alert it came from |
| Responses.ReadingList | views.py:282 | every reading dictionary in the list reads back as the reading it came from |
| Responses.IngestResponse | views.py:205-217 | 200 with the reading and prediction dictionaries on success, 400 with status "error" on failure |
| Responses.LatestResponse | views.py:253-261 | 404 "No data available" exactly when there is no data; otherwise 200 with the reading, the prediction or null, and the alerts |
| Responses.OptionalPrediction | views.py:246 | null exactly when there is no prediction; otherwise the prediction's dictionary |
| Responses.PredictionMap | views.py:300-310 | the predictions object has one key per linked reading, and each value reads back as its prediction |
| Responses.HistoryResponse | views.py:312-316 | 200 with the listed readings and the predictions object keyed by reading id |
| Responses.AckResponse | views.py:335-361 | 200 with the flagged alert, 404 "Alert not found", or 400, as the acknowledgement went |
| Responses.AlertsResponse | views.py:384-387 | 200 with the listing's alert dictionaries |

## Left out

- HTML routes, templates and redirects (views.py:15-27, 118-124) and the
  `socketio.emit` transport: only the broadcast payload is modelled, as
  `Ingested.broadcast`.
- Views.Server.Process: each handler is modelled as running to completion
  without interleaving with another. views.py holds no lock around the
  shared lists, so two concurrent ingestions can interleave between the
  cache appends (views.py:148-193), the commit (views.py:196) and the
  broadcast filter (views.py:202). The claim that the broadcast is exactly
  the surviving new alerts rests on that atomicity, and so do the contracts
  of the other handlers, which read the caches.
- The durable store's internals: SQL evaluation, `db.session` transactions
  and the backend. `db` is imported from app.py, which never defines it. A
  table is a sequence of rows in insertion order, and insertion order settles
  the order SQL leaves open between equal timestamps.
- Store.Limit: assumes SQLite's reading of a negative LIMIT (no bound). Other
  backends may reject it.
- Views.Server.Acknowledge: the store keeps alert rows as values. In the
  source, a stored alert that is also cached may be the same ORM object, so
  flagging it in the store also flags the cached copy. The model does not
  capture that aliasing; flagging a stored row leaves the cache unchanged.
- Views.Score: the risk models and the alert rules live in ml_models.py,
  which is not part of this model. They are uninterpreted function values, so
  the model does not state that a risk lies in [0, 1].
- Views.ApiFields: the vitals are reals. A JSON payload whose vital is a
  string or another non-number, which the source passes through unconverted,
  is not modelled. Nor is the difference between the integer default 0 and
  0.0.
- Views.FormFields: `float()` of a form field that is not a number raises an
  error in the source; the model takes the fields as already parsed.
- Views.Server.GetHistory: the `hours` parameter and the cutoff computed from
  the clock (views.py:274-278) are not modelled. The cutoff is a parameter,
  and `int()` errors on the query parameters are left out.
- Views.Server.Process: one `now` stands for every clock reading of a request.
  The source reads the clock separately for the reading, the prediction and
  each alert.
- Views.Server.ManualEntry: on an error the source renders the form with the
  message instead of replying 400, and on success it redirects. Neither page
  is modelled.
- Responses.IngestResponse, Responses.AckResponse: the 400 replies carry
  `str(e)` as their message in the source. The exception text is not
  modelled, so the error body holds only the status.
- Views.Server.GetAlerts: the `acknowledged` query parameter is taken as
  an already parsed flag; the case-insensitive comparison with "true"
  (views.py:368) is not modelled.
- Exceptions other than a failed commit or a missing JSON body, and logging.
- Alert.SEVERITY_LOW / MEDIUM / HIGH (models.py:52-54): declared, never used
  by the handlers.
- uuid4 randomness: identifiers come from an injective generator, which makes
  them distinct by construction.
- Sorting.SortByTime: the in-place `list.sort` is modelled as a stable sort
  function on sequences.
- device_simulator.py (a traffic generator), main.py (server launch) and the
  rest of app.py (Flask, CORS and SocketIO setup, model loading).
