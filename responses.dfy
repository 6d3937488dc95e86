/**
 * The JSON responses of the API handlers of views.py: the status code and the
 * payload each handler builds from its result with the `to_dict` serialisers.
 * Every contract states that the payload gives back exactly the records the
 * handler produced.
 */
module Responses {
  import opened Models
  import opened Views

  datatype Response = Response(status: int, body: Dict)

  const Ok: int := 200
  const NotFound: int := 404
  const BadRequest: int := 400

  /** `[a.to_dict() for a in rows]` */
  function AlertList(rows: seq<AlertRecord>): (j: Json)
    ensures j.Arr? && |j.items| == |rows|
    ensures forall i :: 0 <= i < |rows| ==> j.items[i].Obj? && AlertFromDict(j.items[i].fields) == Some(rows[i])
  {
    assert forall i :: 0 <= i < |rows| ==> AlertFromDict(AlertRecordToDict(rows[i])) == Some(rows[i]) by {
      forall i | 0 <= i < |rows| {
        AlertDictRoundTrip(rows[i]);
      }
    }
    Arr(seq(|rows|, i requires 0 <= i < |rows| => Obj(AlertRecordToDict(rows[i]))))
  }

  /** `[d.to_dict() for d in rows]` */
  function ReadingList(rows: seq<HealthData>): (j: Json)
    ensures j.Arr? && |j.items| == |rows|
    ensures forall i :: 0 <= i < |rows| ==> j.items[i].Obj? && HealthDataFromDict(j.items[i].fields) == Some(rows[i])
  {
    assert forall i :: 0 <= i < |rows| ==> HealthDataFromDict(HealthDataToDict(rows[i])) == Some(rows[i]) by {
      forall i | 0 <= i < |rows| {
        HealthDataDictRoundTrip(rows[i]);
      }
    }
    Arr(seq(|rows|, i requires 0 <= i < |rows| => Obj(HealthDataToDict(rows[i]))))
  }

  /** receive_health_data's reply (views.py:205-217). The text of the
      exception in the error reply is not modelled. */
  function IngestResponse(r: IngestResult): (resp: Response)
    ensures resp.status == Ok <==> r.Ingested?
    ensures resp.status == BadRequest <==> r.IngestFailed?
    ensures "status" in resp.body && resp.body["status"] == Str(if r.Ingested? then "success" else "error")
    ensures r.Ingested? ==>
              && "data" in resp.body && resp.body["data"].Obj?
              && HealthDataFromDict(resp.body["data"].fields) == Some(r.reading)
              && "prediction" in resp.body && resp.body["prediction"].Obj?
              && PredictionFromDict(resp.body["prediction"].fields) == Some(r.prediction)
  {
    match r
    case Ingested(reading, prediction, _) =>
      HealthDataDictRoundTrip(reading);
      PredictionDictRoundTrip(prediction);
      Response(Ok, map["status" := Str("success"), "message" := Str("Data received and processed"),
                       "data" := Obj(HealthDataToDict(reading)),
                       "prediction" := Obj(PredictionToDict(prediction))])
    case IngestFailed(_) =>
      Response(BadRequest, map["status" := Str("error")])
  }

  /** get_latest_data's reply (views.py:253-261): 404 when there is no data,
      otherwise the reading, its prediction or null, and its alerts. */
  function LatestResponse(r: LatestResult): (resp: Response)
    ensures resp.status == NotFound <==> r.NoData?
    ensures r.NoData? ==> resp.body == map["status" := Str("error"), "message" := Str("No data available")]
    ensures r.Latest? ==>
              && resp.status == Ok
              && "health_data" in resp.body && resp.body["health_data"].Obj?
              && HealthDataFromDict(resp.body["health_data"].fields) == Some(r.reading)
              && "prediction" in resp.body
              && (r.prediction.None? <==> resp.body["prediction"] == Null)
              && (r.prediction.Some? ==> resp.body["prediction"].Obj?
                                         && PredictionFromDict(resp.body["prediction"].fields) == r.prediction)
              && "alerts" in resp.body && resp.body["alerts"] == AlertList(r.alerts)
  {
    match r
    case NoData =>
      Response(NotFound, map["status" := Str("error"), "message" := Str("No data available")])
    case Latest(reading, prediction, alerts) =>
      HealthDataDictRoundTrip(reading);
      Response(Ok, map["status" := Str("success"), "health_data" := Obj(HealthDataToDict(reading)),
                       "prediction" := OptionalPrediction(prediction), "alerts" := AlertList(alerts)])
  }

  /** `prediction.to_dict() if prediction else None` */
  function OptionalPrediction(p: Option<Prediction>): (j: Json)
    ensures p.None? <==> j == Null
    ensures p.Some? ==> j.Obj? && PredictionFromDict(j.fields) == p
  {
    match p
    case None => Null
    case Some(q) =>
      PredictionDictRoundTrip(q);
      Obj(PredictionToDict(q))
  }

  /** `{d['id']: p.to_dict() for ...}` as a JSON object. */
  function PredictionMap(m: map<string, Prediction>): (fields: Dict)
    ensures fields.Keys == m.Keys
    ensures forall id :: id in m ==> fields[id].Obj? && PredictionFromDict(fields[id].fields) == Some(m[id])
  {
    assert forall id :: id in m ==> PredictionFromDict(PredictionToDict(m[id])) == Some(m[id]) by {
      forall id | id in m {
        PredictionDictRoundTrip(m[id]);
      }
    }
    map id | id in m :: Obj(PredictionToDict(m[id]))
  }

  /** get_historical_data's reply (views.py:312-316). */
  function HistoryResponse(r: HistoryResult): (resp: Response)
    ensures resp.status == Ok
    ensures "data" in resp.body && resp.body["data"] == ReadingList(r.data)
    ensures "predictions" in resp.body && resp.body["predictions"].Obj?
    ensures resp.body["predictions"].fields.Keys == r.predictions.Keys
    ensures forall id :: id in r.predictions ==>
              resp.body["predictions"].fields[id].Obj?
              && PredictionFromDict(resp.body["predictions"].fields[id].fields) == Some(r.predictions[id])
  {
    Response(Ok, map["status" := Str("success"), "data" := ReadingList(r.data),
                     "predictions" := Obj(PredictionMap(r.predictions))])
  }

  /** acknowledge_alert's reply (views.py:335-361). */
  function AckResponse(r: AckResult): (resp: Response)
    ensures resp.status == Ok <==> r.Acknowledged?
    ensures resp.status == NotFound <==> r.AlertNotFound?
    ensures resp.status == BadRequest <==> r.AckFailed?
    ensures r.AlertNotFound? ==> resp.body == map["status" := Str("error"), "message" := Str("Alert not found")]
    ensures r.Acknowledged? ==>
              && "alert" in resp.body && resp.body["alert"].Obj?
              && AlertFromDict(resp.body["alert"].fields) == Some(r.alert)
  {
    match r
    case Acknowledged(alert) =>
      AlertDictRoundTrip(alert);
      Response(Ok, map["status" := Str("success"), "message" := Str("Alert acknowledged"),
                       "alert" := Obj(AlertRecordToDict(alert))])
    case AlertNotFound =>
      Response(NotFound, map["status" := Str("error"), "message" := Str("Alert not found")])
    case AckFailed =>
      Response(BadRequest, map["status" := Str("error")])
  }

  /** get_alerts's reply (views.py:384-387). */
  function AlertsResponse(rows: seq<AlertRecord>): (resp: Response)
    ensures resp.status == Ok
    ensures "alerts" in resp.body && resp.body["alerts"] == AlertList(rows)
  {
    Response(Ok, map["status" := Str("success"), "alerts" := AlertList(rows)])
  }
}
