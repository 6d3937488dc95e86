/**
 * The ingestion pipeline and the query handlers of views.py, over the durable
 * store and the three transitional caches (app.py:23-25).
 *
 * Server holds the process-wide state: the caches `healthData`, `predictions`
 * and `alerts`, the committed rows of the durable store, the risk models and
 * alert rules loaded at start-up, and the identifier generator that stands
 * for uuid4. Handlers that change state are methods with `modifies`; the
 * query handlers only read.
 */
module Views {
  import opened Timestamps
  import opened Models
  import opened Lists
  import opened Sorting
  import opened Queries
  import Fifo
  import Store

  const ReadingCap: nat := 1000     // views.py:149
  const PredictionCap: nat := 1000  // views.py:175
  const AlertCap: nat := 100        // views.py:192

  /** One alert produced by the alert rules: message, condition tag, severity. */
  datatype AlertCandidate = AlertCandidate(message: string, condition: string, severity: string)

  /** The risk models and the alert rules, loaded once at start-up (app.py:29).
      What they compute is not part of this model. */
  datatype Analytics = Analytics(
    diabetes: real -> real,
    heartDisease: (real, real, real) -> real,
    hypoxia: (real, real) -> real,
    alertRules: HealthData -> seq<AlertCandidate>)

  /** The fields of a submitted reading as they arrive; None is a missing field. */
  datatype Submission = Submission(
    deviceId: Option<string>,
    glucose: Option<real>,
    bpSystolic: Option<real>,
    bpDiastolic: Option<real>,
    spo2: Option<real>,
    heartRate: Option<real>,
    timestamp: Option<string>)

  /** The arguments a handler passes to HealthData(...), after its defaults. */
  datatype Fields = Fields(
    deviceId: string,
    glucose: real,
    bpSystolic: real,
    bpDiastolic: real,
    spo2: real,
    heartRate: real,
    timestamp: Option<string>)

  /** `HealthData(device_id=..., ...)` in the pipeline (views.py:134-142):
      the reading gets the fresh identifier and the fields as given. */
  function ReadingOf(f: Fields, id: string, now: string): (h: HealthData)
    ensures h.id == id && h.deviceId == f.deviceId && h.glucose == f.glucose
    ensures h.bpSystolic == f.bpSystolic && h.bpDiastolic == f.bpDiastolic
    ensures h.spo2 == f.spo2 && h.heartRate == f.heartRate
    ensures h.timestamp == OrNow(f.timestamp, now)
  {
    NewHealthData(id, f.deviceId, f.glucose, f.bpSystolic, f.bpDiastolic, f.spo2, f.heartRate,
                  f.timestamp, now)
  }

  /** receive_health_data (views.py:134-141): `data.get(field, default)` for
      every field; a missing or empty timestamp ends up as the current time. */
  function ApiFields(body: Submission, now: string): (f: Fields)
    ensures f.deviceId == GetOr(body.deviceId, "unknown")
    ensures f.glucose == GetOr(body.glucose, 0.0) && f.bpSystolic == GetOr(body.bpSystolic, 0.0)
    ensures f.bpDiastolic == GetOr(body.bpDiastolic, 0.0) && f.spo2 == GetOr(body.spo2, 0.0)
    ensures f.heartRate == GetOr(body.heartRate, 0.0)
    ensures OrNow(f.timestamp, now)
            == if body.timestamp.Some? && body.timestamp.value != "" then body.timestamp.value else now
  {
    Fields(GetOr(body.deviceId, "unknown"), GetOr(body.glucose, 0.0), GetOr(body.bpSystolic, 0.0),
           GetOr(body.bpDiastolic, 0.0), GetOr(body.spo2, 0.0), GetOr(body.heartRate, 0.0),
           Some(GetOr(body.timestamp, now)))
  }

  /** manual_entry (views.py:35-43): the form's device defaults to MANUAL, a
      missing vital to 0, and the timestamp is always the current time. */
  function FormFields(form: Submission, now: string): (f: Fields)
    ensures f.deviceId == GetOr(form.deviceId, "MANUAL")
    ensures f.glucose == GetOr(form.glucose, 0.0) && f.bpSystolic == GetOr(form.bpSystolic, 0.0)
    ensures f.bpDiastolic == GetOr(form.bpDiastolic, 0.0) && f.spo2 == GetOr(form.spo2, 0.0)
    ensures f.heartRate == GetOr(form.heartRate, 0.0)
    ensures OrNow(f.timestamp, now) == now
  {
    Fields(GetOr(form.deviceId, "MANUAL"), GetOr(form.glucose, 0.0), GetOr(form.bpSystolic, 0.0),
           GetOr(form.bpDiastolic, 0.0), GetOr(form.spo2, 0.0), GetOr(form.heartRate, 0.0),
           Some(now))
  }

  /** The Prediction built for a reading (views.py:153-168): the three models
      applied to its vitals, linked to the reading's id. */
  function Score(analytics: Analytics, reading: HealthData, id: string, now: string): (p: Prediction)
    ensures p.id == id && p.healthDataId == reading.id && p.timestamp == now
  {
    NewPrediction(id, reading.id,
                  analytics.diabetes(reading.glucose),
                  analytics.heartDisease(reading.bpSystolic, reading.bpDiastolic, reading.heartRate),
                  analytics.hypoxia(reading.spo2, reading.heartRate),
                  None, now)
  }

  /** The record of the Alert built from one candidate (views.py:181-186). */
  function NewAlertRecord(c: AlertCandidate, id: string, readingId: string, now: string): (a: AlertRecord)
    ensures a.id == id && a.healthDataId == readingId && a.timestamp == now && !a.acknowledged
    ensures a.message == c.message && a.condition == c.condition && a.severity == c.severity
  {
    AlertRecord(id, readingId, c.message, c.condition, c.severity, now, false)
  }

  /** `a.health_data_id == id`, the test that links an alert to a reading. */
  function LinkedTo(id: string): Alert -> bool
  {
    (a: Alert) => a.healthDataId == id
  }

  ghost predicate Injective(f: nat -> string)
  {
    forall i: nat, j: nat :: i != j ==> f(i) != f(j)
  }

  // ------------------------------------------------------------------ results

  datatype Failure = MalformedBody | CommitFailed

  datatype IngestResult =
    | Ingested(reading: HealthData, prediction: Prediction, broadcast: seq<AlertRecord>)
    | IngestFailed(failure: Failure)

  datatype LatestResult =
    | Latest(reading: HealthData, prediction: Option<Prediction>, alerts: seq<AlertRecord>)
    | NoData

  datatype HistoryResult = History(data: seq<HealthData>, predictions: map<string, Prediction>)

  datatype AckResult = Acknowledged(alert: AlertRecord) | AlertNotFound | AckFailed

  /** If the survivors of a capped append are filtered by a test that none of
      the earlier entries and all of the appended ones pass, what remains is
      the newest appended entries that still fit. */
  lemma SurvivingNewAlerts(before: seq<Alert>, added: seq<Alert>, id: string)
    requires |before| <= AlertCap
    requires forall i :: 0 <= i < |before| ==> before[i].healthDataId != id
    requires forall i :: 0 <= i < |added| ==> added[i].healthDataId == id
    ensures Filter(Fifo.Window(before + added, AlertCap), LinkedTo(id)) == Fifo.Window(added, AlertCap)
  {
    Fifo.FilterWindow(before, added, AlertCap, LinkedTo(id));
  }

  class Server {
    const analytics: Analytics
    const uuid: nat -> string
    var issued: nat

    // committed rows of the durable store
    var dbReadings: seq<HealthData>
    var dbPredictions: seq<Prediction>
    var dbAlerts: seq<AlertRecord>

    // transitional caches
    var healthData: seq<HealthData>
    var predictions: seq<Prediction>
    var alerts: seq<Alert>

    /** The identifiers handed out so far. */
    ghost function Issued(): set<string>
      reads this
    {
      set k: nat | k < issued :: uuid(k)
    }

    /** Each cached Alert object is in the cache once. */
    ghost predicate DistinctAlerts()
      reads this
    {
      forall i, j :: 0 <= i < j < |alerts| ==> alerts[i] != alerts[j]
    }

    ghost predicate Valid()
      reads this
    {
      && |healthData| <= ReadingCap
      && |predictions| <= PredictionCap
      && |alerts| <= AlertCap
      && DistinctAlerts()
      && Injective(uuid)
      && (forall i :: 0 <= i < |alerts| ==> alerts[i].healthDataId in Issued())
    }

    /** Start-up (app.py:23-25): the caches are empty; the durable store holds
        whatever earlier runs committed. */
    constructor (analytics: Analytics, uuid: nat -> string,
                 dbReadings: seq<HealthData>, dbPredictions: seq<Prediction>,
                 dbAlerts: seq<AlertRecord>)
      requires Injective(uuid)
      ensures Valid()
      ensures this.analytics == analytics && this.uuid == uuid && issued == 0
      ensures this.dbReadings == dbReadings && this.dbPredictions == dbPredictions
      ensures this.dbAlerts == dbAlerts
      ensures healthData == [] && predictions == [] && alerts == []
    {
      this.analytics := analytics;
      this.uuid := uuid;
      this.issued := 0;
      this.dbReadings := dbReadings;
      this.dbPredictions := dbPredictions;
      this.dbAlerts := dbAlerts;
      this.healthData := [];
      this.predictions := [];
      this.alerts := [];
    }

    /** `str(uuid.uuid4())`: an identifier never handed out before. */
    method NextId() returns (id: string)
      requires Valid()
      modifies this`issued
      ensures Valid()
      ensures id == uuid(old(issued)) && issued == old(issued) + 1
      ensures id !in old(Issued()) && Issued() == old(Issued()) + {id}
    {
      id := uuid(issued);
      issued := issued + 1;
      assert uuid(old(issued)) in Issued();
    }

    /** The alert loop of the pipeline (views.py:180-194): one Alert per
        candidate, each with the next identifier, each appended to the alert
        cache with a capped append. */
    method RaiseAlerts(candidates: seq<AlertCandidate>, readingId: string, now: string)
      returns (pending: seq<Alert>)
      requires Valid() && readingId in Issued()
      modifies this`issued, this`alerts
      ensures Valid()
      ensures issued == old(issued) + |candidates| && |pending| == |candidates|
      ensures forall j :: 0 <= j < |pending| ==>
                fresh(pending[j])
                && pending[j].View() == NewAlertRecord(candidates[j], uuid(old(issued) + j), readingId, now)
      ensures alerts == Fifo.Window(old(alerts) + pending, AlertCap)
    {
      pending := [];
      var i := 0;
      while i < |candidates|
        invariant 0 <= i <= |candidates| && |pending| == i
        invariant issued == old(issued) + i
        invariant Valid() && readingId in Issued()
        invariant forall j :: 0 <= j < i ==> fresh(pending[j])
        invariant forall j :: 0 <= j < i ==>
                    pending[j].View() == NewAlertRecord(candidates[j], uuid(old(issued) + j), readingId, now)
        invariant alerts == Fifo.Window(old(alerts) + pending, AlertCap)
      {
        var alert := RaiseAlert(candidates[i], readingId, now);
        Fifo.PushOntoWindow(old(alerts) + pending, alert, AlertCap);
        assert old(alerts) + pending + [alert] == old(alerts) + (pending + [alert]);
        pending := pending + [alert];
        i := i + 1;
      }
    }

    /** One iteration of the alert loop: a new Alert with the next
        identifier, appended to the alert cache with the pop(0) on overflow. */
    method RaiseAlert(c: AlertCandidate, readingId: string, now: string) returns (alert: Alert)
      requires Valid() && readingId in Issued()
      modifies this`issued, this`alerts
      ensures Valid() && readingId in Issued()
      ensures issued == old(issued) + 1
      ensures fresh(alert) && alert.View() == NewAlertRecord(c, uuid(old(issued)), readingId, now)
      ensures alerts == Fifo.Push(old(alerts), alert, AlertCap)
    {
      var alertId := NextId();
      alert := new Alert(alertId, readingId, c.message, c.condition, c.severity, None, now);
      alerts := alerts + [alert];
      if |alerts| > AlertCap {
        alerts := alerts[1..];
      }
    }

    /** What one run of the ingestion pipeline leaves behind, for the fields
        `fields`: the reading, its prediction and one alert per candidate get
        the next identifiers in that order; each cache was appended to with a
        capped append (the alert cache once per alert); the store gains the
        three kinds of rows only if the commit succeeds; and the broadcast
        lists the cached alerts of the new reading, which are the newest of
        the alerts just created. */
    twostate predicate Ingests(fields: Fields, now: string, commitOk: bool,
                               r: IngestResult, new created: seq<Alert>)
      reads this, created
    {
      var reading := ReadingOf(fields, uuid(old(issued)), now);
      var prediction := Score(analytics, reading, uuid(old(issued) + 1), now);
      var rules := analytics.alertRules(reading);
      && issued == old(issued) + 2 + |created|
      && |created| == |rules|
      && (forall j :: 0 <= j < |created| ==>
            fresh(created[j])
            && created[j].View() == NewAlertRecord(rules[j], uuid(old(issued) + 2 + j), reading.id, now))
      && healthData == Fifo.Push(old(healthData), reading, ReadingCap)
      && predictions == Fifo.Push(old(predictions), prediction, PredictionCap)
      && alerts == Fifo.Window(old(alerts) + created, AlertCap)
      && (commitOk ==>
            && dbReadings == old(dbReadings) + [reading]
            && dbPredictions == old(dbPredictions) + [prediction]
            && dbAlerts == old(dbAlerts) + AlertViews(created)
            && r == Ingested(reading, prediction,
                             AlertViews(Fifo.Window(created, AlertCap))))
      && (!commitOk ==>
            && dbReadings == old(dbReadings)
            && dbPredictions == old(dbPredictions)
            && dbAlerts == old(dbAlerts)
            && r == IngestFailed(CommitFailed))
    }

    /** The pipeline shared by receive_health_data and manual_entry
        (views.py:145-203 and 57-115): the caches are appended to before the
        commit, so a failed commit leaves them holding entries the store
        never received. */
    method Process(fields: Fields, now: string, commitOk: bool)
      returns (r: IngestResult, ghost created: seq<Alert>)
      requires Valid()
      modifies this
      ensures Valid()
      ensures Ingests(fields, now, commitOk, r, created)
    {
      ghost var alertsBefore := alerts;
      var reading, prediction, pending := Stage(fields, now);
      created := pending;
      if !commitOk {
        r := IngestFailed(CommitFailed);
        return;
      }
      var records := AlertViews(pending);
      Commit(reading, prediction, records);
      assert records == AlertViews(pending);

      var broadcast := AlertViews(Filter(alerts, LinkedTo(reading.id)));
      assert forall i :: 0 <= i < |pending| ==> pending[i].healthDataId == reading.id;
      SurvivingNewAlerts(alertsBefore, pending, reading.id);
      assert broadcast == AlertViews(Fifo.Window(pending, AlertCap));
      r := Ingested(reading, prediction, broadcast);
    }

    /** The part of the pipeline before the commit (views.py:145-194): build
        and cache the reading, its prediction and its alerts, in that order. */
    method Stage(fields: Fields, now: string)
      returns (reading: HealthData, prediction: Prediction, pending: seq<Alert>)
      requires Valid()
      modifies this`issued, this`healthData, this`predictions, this`alerts
      ensures Valid()
      ensures reading == ReadingOf(fields, uuid(old(issued)), now)
      ensures prediction == Score(analytics, reading, uuid(old(issued) + 1), now)
      ensures forall i :: 0 <= i < |old(alerts)| ==> old(alerts)[i].healthDataId != reading.id
      ensures issued == old(issued) + 2 + |pending|
      ensures |pending| == |analytics.alertRules(reading)|
      ensures forall j :: 0 <= j < |pending| ==>
                fresh(pending[j])
                && pending[j].View()
                   == NewAlertRecord(analytics.alertRules(reading)[j], uuid(old(issued) + 2 + j), reading.id, now)
      ensures healthData == Fifo.Push(old(healthData), reading, ReadingCap)
      ensures predictions == Fifo.Push(old(predictions), prediction, PredictionCap)
      ensures alerts == Fifo.Window(old(alerts) + pending, AlertCap)
    {
      var readingId := NextId();
      reading := ReadingOf(fields, readingId, now);
      PushReading(reading);

      var predictionId := NextId();
      prediction := Score(analytics, reading, predictionId, now);
      PushPrediction(prediction);

      pending := RaiseAlerts(analytics.alertRules(reading), reading.id, now);
    }

    /** `health_data_cache.append(...)` followed by the pop(0) on overflow. */
    method PushReading(reading: HealthData)
      requires Valid()
      modifies this`healthData
      ensures Valid()
      ensures healthData == Fifo.Push(old(healthData), reading, ReadingCap)
    {
      healthData := healthData + [reading];
      if |healthData| > ReadingCap {
        healthData := healthData[1..];
      }
    }

    /** `predictions_cache.append(...)` followed by the pop(0) on overflow. */
    method PushPrediction(prediction: Prediction)
      requires Valid()
      modifies this`predictions
      ensures Valid()
      ensures predictions == Fifo.Push(old(predictions), prediction, PredictionCap)
    {
      predictions := predictions + [prediction];
      if |predictions| > PredictionCap {
        predictions := predictions[1..];
      }
    }

    /** `db.session.commit()` after the adds of one ingestion: the three kinds
        of rows become visible together. */
    method Commit(reading: HealthData, prediction: Prediction, records: seq<AlertRecord>)
      requires Valid()
      modifies this`dbReadings, this`dbPredictions, this`dbAlerts
      ensures Valid()
      ensures dbReadings == old(dbReadings) + [reading]
      ensures dbPredictions == old(dbPredictions) + [prediction]
      ensures dbAlerts == old(dbAlerts) + records
    {
      dbReadings := dbReadings + [reading];
      dbPredictions := dbPredictions + [prediction];
      dbAlerts := dbAlerts + records;
    }

    /** POST /api/healthdata (views.py:128-217). A body that is not a JSON
        object fails before anything is changed. */
    method ReceiveHealthData(body: Option<Submission>, now: string, commitOk: bool)
      returns (r: IngestResult, ghost created: seq<Alert>)
      requires Valid()
      modifies this
      ensures Valid()
      ensures body.None? ==> r == IngestFailed(MalformedBody) && created == [] && unchanged(this)
      ensures body.Some? ==> Ingests(ApiFields(body.value, now), now, commitOk, r, created)
    {
      if body.None? {
        r, created := IngestFailed(MalformedBody), [];
        return;
      }
      r, created := Process(ApiFields(body.value, now), now, commitOk);
    }

    /** POST /manual-entry (views.py:31-124): the same pipeline on form fields. */
    method ManualEntry(form: Submission, now: string, commitOk: bool)
      returns (r: IngestResult, ghost created: seq<Alert>)
      requires Valid()
      modifies this
      ensures Valid()
      ensures Ingests(FormFields(form, now), now, commitOk, r, created)
    {
      r, created := Process(FormFields(form, now), now, commitOk);
    }

    // --------------------------------------------------------------- queries

    /** The scan of the predictions cache in get_latest_data (views.py:231-235). */
    method LastCachedPrediction(id: string) returns (p: Option<Prediction>)
      ensures p == LastPredictionFor(predictions, id)
    {
      p := None;
      var i := |predictions|;
      while i > 0
        invariant 0 <= i <= |predictions|
        invariant forall j :: i <= j < |predictions| ==> predictions[j].healthDataId != id
      {
        if predictions[i - 1].healthDataId == id {
          p := Some(predictions[i - 1]);
          return;
        }
        i := i - 1;
      }
    }

    /** GET /api/latest (views.py:220-267). The store answers when it holds
        any reading; otherwise the newest cached reading is reported with the
        last cached prediction and the cached alerts linked to it; with
        neither, there is no data. */
    method GetLatest() returns (r: LatestResult)
      ensures r.NoData? <==> dbReadings == [] && healthData == []
      ensures dbReadings != [] ==>
                && r.Latest?
                && r.reading in dbReadings
                && (forall i :: 0 <= i < |dbReadings| ==> Le(dbReadings[i].timestamp, r.reading.timestamp))
                && r.prediction == FirstPredictionFor(dbPredictions, r.reading.id)
                && r.alerts == Store.AlertsOf(dbAlerts, r.reading.id)
      ensures dbReadings == [] && healthData != [] ==>
                && r.Latest?
                && r.reading == healthData[|healthData| - 1]
                && r.prediction == LastPredictionFor(predictions, r.reading.id)
                && r.alerts == AlertViews(Filter(alerts, LinkedTo(r.reading.id)))
    {
      var stored := Store.LatestReading(dbReadings);
      if stored.None? && healthData != [] {
        var latest := healthData[|healthData| - 1];
        var prediction := LastCachedPrediction(latest.id);
        r := Latest(latest, prediction, AlertViews(Filter(alerts, LinkedTo(latest.id))));
      } else if stored.Some? {
        var latest := stored.value;
        r := Latest(latest, FirstPredictionFor(dbPredictions, latest.id), Store.AlertsOf(dbAlerts, latest.id));
      } else {
        r := NoData;
      }
    }

    /** The scan of the predictions cache in get_historical_data
        (views.py:306-310): the first cached prediction linked to `id`. */
    method FirstCachedPrediction(id: string) returns (p: Option<Prediction>)
      ensures p == FirstPredictionFor(predictions, id)
    {
      p := None;
      var i := 0;
      while i < |predictions|
        invariant 0 <= i <= |predictions|
        invariant forall j :: 0 <= j < i ==> predictions[j].healthDataId != id
      {
        if predictions[i].healthDataId == id {
          p := Some(predictions[i]);
          return;
        }
        i := i + 1;
      }
    }

    /** GET /api/history (views.py:271-324), with the cutoff already computed
        from the `hours` parameter. */
    method GetHistory(cutoff: string, requested: Option<int>) returns (r: HistoryResult)
      ensures r.data == HistoryData(dbReadings, healthData, cutoff, requested)
      ensures forall id :: id in r.predictions <==>
                (exists i :: 0 <= i < |r.data| && r.data[i].id == id)
                && LinkedPrediction(dbPredictions, predictions, id).Some?
      ensures forall id :: id in r.predictions ==>
                Some(r.predictions[id]) == LinkedPrediction(dbPredictions, predictions, id)
    {
      var data := HistoryListing(cutoff, requested);
      var linked := LinkPredictions(data);
      r := History(data, linked);
    }

    /** The `data` list of get_historical_data (views.py:275-297): the store's
        answer, merged with the cache, sorted, and cut to the limit. */
    method HistoryListing(cutoff: string, requested: Option<int>) returns (data: seq<HealthData>)
      ensures data == HistoryData(dbReadings, healthData, cutoff, requested)
    {
      var limit := EffectiveLimit(requested);
      var stored := Store.ReadingsSince(dbReadings, cutoff, limit);
      var all := MergeCached(stored, Filter(healthData, Store.Since(cutoff)));
      assert all == MergedHistory(dbReadings, healthData, cutoff, limit);
      all := SortByTime(all);
      data := if limit < |all| then SliceFrom(all, -limit) else all;
    }

    /** The duplicate-avoiding merge of get_historical_data (views.py:286-291). */
    method MergeCached(stored: seq<HealthData>, fromCache: seq<HealthData>) returns (all: seq<HealthData>)
      ensures all == stored + Filter(fromCache, NotAmong(stored))
    {
      all := stored;
      for i := 0 to |fromCache|
        invariant all == stored + Filter(fromCache[..i], NotAmong(stored))
      {
        FilterSnoc(fromCache[..i], fromCache[i], NotAmong(stored));
        assert fromCache[..i + 1] == fromCache[..i] + [fromCache[i]];
        if !HasReadingId(stored, fromCache[i].id) {
          all := all + [fromCache[i]];
        }
      }
      assert fromCache[..|fromCache|] == fromCache;
    }

    /** The predictions map of get_historical_data (views.py:299-310). */
    method LinkPredictions(data: seq<HealthData>) returns (linked: map<string, Prediction>)
      ensures forall id :: id in linked <==>
                (exists i :: 0 <= i < |data| && data[i].id == id)
                && LinkedPrediction(dbPredictions, predictions, id).Some?
      ensures forall id :: id in linked ==>
                Some(linked[id]) == LinkedPrediction(dbPredictions, predictions, id)
    {
      linked := map[];
      for i := 0 to |data|
        invariant forall id :: id in linked <==>
                    (exists j :: 0 <= j < i && data[j].id == id)
                    && LinkedPrediction(dbPredictions, predictions, id).Some?
        invariant forall id :: id in linked ==>
                    Some(linked[id]) == LinkedPrediction(dbPredictions, predictions, id)
      {
        var id := data[i].id;
        var p := FirstPredictionFor(dbPredictions, id);
        if p.None? {
          p := FirstCachedPrediction(id);
        }
        assert p == LinkedPrediction(dbPredictions, predictions, id);
        if p.Some? {
          linked := linked[id := p.value];
        }
      }
    }

    /** GET /api/alerts (views.py:365-391): the store's alerts with the
        requested flag, then the cached alerts with that flag whose id is not
        yet listed. */
    method GetAlerts(flag: bool) returns (r: seq<AlertRecord>)
      ensures r == MergeAlerts(Store.AlertsWithFlag(dbAlerts, flag), AlertViews(alerts), flag)
      ensures forall i :: 0 <= i < |r| ==> r[i].acknowledged == flag
    {
      var stored := Store.AlertsWithFlag(dbAlerts, flag);
      r := stored;
      for i := 0 to |alerts|
        invariant r == MergeAlerts(stored, AlertViews(alerts[..i]), flag)
      {
        var a := alerts[i];
        assert AlertViews(alerts[..i + 1])[..i] == AlertViews(alerts[..i]);
        if a.acknowledged == flag && !HasAlertId(r, a.id) {
          r := r + [a.View()];
        }
      }
      assert alerts[..|alerts|] == alerts;
      MergeAlertsFlag(dbAlerts, AlertViews(alerts), flag);
    }

    /** POST /api/alerts/<id>/acknowledge (views.py:327-361). The store is
        searched first and its row updated and committed; otherwise the first
        cached alert with that id is flagged in place; otherwise the alert is
        not found. */
    method Acknowledge(alertId: string, commitOk: bool) returns (r: AckResult)
      requires Valid()
      modifies this`dbAlerts, alerts
      ensures Valid()
      ensures r.Acknowledged? ==> r.alert.id == alertId && r.alert.acknowledged
      ensures r.AlertNotFound? ==> dbAlerts == old(dbAlerts) && AlertViews(alerts) == old(AlertViews(alerts))
      ensures Store.FindAlert(old(dbAlerts), alertId).Some? ==>
                && AlertViews(alerts) == old(AlertViews(alerts))
                && (commitOk ==> dbAlerts == Store.MarkAcknowledged(old(dbAlerts), alertId)
                                 && r == Acknowledged(dbAlerts[Store.FindAlert(old(dbAlerts), alertId).value]))
                && (!commitOk ==> dbAlerts == old(dbAlerts) && r == AckFailed)
      ensures Store.FindAlert(old(dbAlerts), alertId).None? ==>
                && dbAlerts == old(dbAlerts)
                && AlertViews(alerts) == Store.MarkAcknowledged(old(AlertViews(alerts)), alertId)
                && (Store.FindAlert(old(AlertViews(alerts)), alertId).None? <==> r == AlertNotFound)
                && (Store.FindAlert(old(AlertViews(alerts)), alertId).Some? ==>
                      r == Acknowledged(AlertViews(alerts)[Store.FindAlert(old(AlertViews(alerts)), alertId).value]))
    {
      var k := Store.FindAlert(dbAlerts, alertId);
      if k.Some? {
        r := AcknowledgeStored(alertId, k.value, commitOk);
      } else {
        r := AcknowledgeCached(alertId);
      }
    }

    /** The store branch of acknowledge_alert (views.py:331-339): set the
        row's flag and commit. */
    method AcknowledgeStored(alertId: string, k: nat, commitOk: bool) returns (r: AckResult)
      requires Store.FindAlert(dbAlerts, alertId) == Some(k)
      modifies this`dbAlerts
      ensures r.Acknowledged? ==> r.alert.id == alertId && r.alert.acknowledged
      ensures commitOk ==> dbAlerts == Store.MarkAcknowledged(old(dbAlerts), alertId) && r == Acknowledged(dbAlerts[k])
      ensures !commitOk ==> dbAlerts == old(dbAlerts) && r == AckFailed
    {
      if !commitOk {
        return AckFailed;
      }
      dbAlerts := dbAlerts[k := dbAlerts[k].(acknowledged := true)];
      r := Acknowledged(dbAlerts[k]);
    }

    /** The fallback to the alert cache in acknowledge_alert (views.py:340-349):
        the first cached alert with that id is flagged in place. */
    method AcknowledgeCached(alertId: string) returns (r: AckResult)
      requires DistinctAlerts()
      modifies alerts
      ensures r.Acknowledged? ==> r.alert.id == alertId && r.alert.acknowledged
      ensures AlertViews(alerts) == Store.MarkAcknowledged(old(AlertViews(alerts)), alertId)
      ensures Store.FindAlert(old(AlertViews(alerts)), alertId).None? <==> r == AlertNotFound
      ensures r == AlertNotFound ==> AlertViews(alerts) == old(AlertViews(alerts))
      ensures Store.FindAlert(old(AlertViews(alerts)), alertId).Some? ==>
                r == Acknowledged(AlertViews(alerts)[Store.FindAlert(old(AlertViews(alerts)), alertId).value])
    {
      ghost var before := AlertViews(alerts);
      var c := FindCachedAlert(alertId);
      if c.None? {
        return AlertNotFound;
      }
      SetAcknowledged(c.value);
      assert AlertViews(alerts) == Store.MarkAcknowledged(before, alertId);
      r := Acknowledged(alerts[c.value].View());
    }

    /** `in_memory_alert.acknowledged = True` on the cached alert at `c`. */
    method SetAcknowledged(c: nat)
      requires DistinctAlerts() && c < |alerts|
      modifies alerts[c]
      ensures AlertViews(alerts) == old(AlertViews(alerts))[c := old(AlertViews(alerts))[c].(acknowledged := true)]
    {
      ghost var before := AlertViews(alerts);
      alerts[c].acknowledged := true;
      forall j | 0 <= j < |alerts|
        ensures alerts[j].View() == before[c := before[c].(acknowledged := true)][j]
      {
        if j != c {
          assert alerts[j] != alerts[c];
        }
      }
    }

    /** `for in_memory_alert in alerts: if in_memory_alert.id == alert_id`
        (views.py:341-342): the position of the first cached alert with that id. */
    method FindCachedAlert(alertId: string) returns (c: Option<nat>)
      ensures c == Store.FindAlert(AlertViews(alerts), alertId)
    {
      var i := 0;
      while i < |alerts|
        invariant 0 <= i <= |alerts|
        invariant forall j :: 0 <= j < i ==> alerts[j].id != alertId
      {
        if alerts[i].id == alertId {
          return Some(i);
        }
        i := i + 1;
      }
      return None;
    }
  }
}
