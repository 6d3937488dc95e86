/**
 * The three record types of models.py: a health reading (HealthData), the risk
 * scores computed for it (Prediction) and the alerts raised for it (Alert),
 * with their `to_dict` serialisers. Readings and predictions are never changed
 * after construction, so they are values; an alert's `acknowledged` flag is
 * set in place later, so Alert is a class with that one mutable field.
 */
module Models {

  datatype Option<T> = None | Some(value: T)

  /** Python's dict.get(key, default) on an optional field. */
  function GetOr<T>(o: Option<T>, default: T): T
  {
    match o
    case Some(v) => v
    case None => default
  }

  /** The JSON values that `to_dict` results and handler responses are made of. */
  datatype Json =
    | Null
    | Bool(b: bool)
    | Num(n: real)
    | Str(s: string)
    | Arr(items: seq<Json>)
    | Obj(fields: map<string, Json>)

  type Dict = map<string, Json>

  /** `timestamp or datetime.utcnow().isoformat()` (models.py:15, 38, 62):
      a missing or empty timestamp is replaced by the current time. */
  function OrNow(timestamp: Option<string>, now: string): (r: string)
    ensures timestamp.Some? && timestamp.value != "" ==> r == timestamp.value
    ensures timestamp.None? || timestamp.value == "" ==> r == now
  {
    if timestamp.Some? && timestamp.value != "" then timestamp.value else now
  }

  // ---------------------------------------------------------------- HealthData

  datatype HealthData = HealthData(
    id: string,
    deviceId: string,
    glucose: real,      // mg/dL
    bpSystolic: real,   // mmHg
    bpDiastolic: real,  // mmHg
    spo2: real,         // %
    heartRate: real,    // BPM
    timestamp: string)

  /** HealthData.__init__: `id` is the freshly generated identifier. */
  function NewHealthData(id: string, deviceId: string, glucose: real, bpSystolic: real,
                         bpDiastolic: real, spo2: real, heartRate: real,
                         timestamp: Option<string>, now: string): (h: HealthData)
    ensures h.id == id && h.deviceId == deviceId && h.glucose == glucose
    ensures h.bpSystolic == bpSystolic && h.bpDiastolic == bpDiastolic
    ensures h.spo2 == spo2 && h.heartRate == heartRate
    ensures timestamp.Some? && timestamp.value != "" ==> h.timestamp == timestamp.value
    ensures timestamp.None? || timestamp.value == "" ==> h.timestamp == now
  {
    HealthData(id, deviceId, glucose, bpSystolic, bpDiastolic, spo2, heartRate, OrNow(timestamp, now))
  }

  const HealthDataKeys: set<string> :=
    {"id", "device_id", "glucose", "bp_systolic", "bp_diastolic", "spo2", "heart_rate", "timestamp"}

  /** HealthData.to_dict */
  function HealthDataToDict(h: HealthData): (d: Dict)
    ensures d.Keys == HealthDataKeys
  {
    map["id" := Str(h.id), "device_id" := Str(h.deviceId), "glucose" := Num(h.glucose),
        "bp_systolic" := Num(h.bpSystolic), "bp_diastolic" := Num(h.bpDiastolic),
        "spo2" := Num(h.spo2), "heart_rate" := Num(h.heartRate), "timestamp" := Str(h.timestamp)]
  }

  /** Reads a reading back from its dictionary form (what a client of the API does). */
  function HealthDataFromDict(d: Dict): Option<HealthData>
  {
    if && HealthDataKeys <= d.Keys
       && d["id"].Str? && d["device_id"].Str? && d["timestamp"].Str?
       && d["glucose"].Num? && d["bp_systolic"].Num? && d["bp_diastolic"].Num?
       && d["spo2"].Num? && d["heart_rate"].Num?
    then Some(HealthData(d["id"].s, d["device_id"].s, d["glucose"].n, d["bp_systolic"].n,
                         d["bp_diastolic"].n, d["spo2"].n, d["heart_rate"].n, d["timestamp"].s))
    else None
  }

  /** to_dict loses nothing: every field comes back unchanged. */
  lemma HealthDataDictRoundTrip(h: HealthData)
    ensures HealthDataFromDict(HealthDataToDict(h)) == Some(h)
  {
  }

  // ---------------------------------------------------------------- Prediction

  datatype Prediction = Prediction(
    id: string,
    healthDataId: string,
    diabetesRisk: real,       // probability (0-1)
    heartDiseaseRisk: real,   // probability (0-1)
    hypoxiaRisk: real,        // probability (0-1)
    timestamp: string)

  /** Prediction.__init__ */
  function NewPrediction(id: string, healthDataId: string, diabetesRisk: real,
                         heartDiseaseRisk: real, hypoxiaRisk: real,
                         timestamp: Option<string>, now: string): (p: Prediction)
    ensures p.id == id && p.healthDataId == healthDataId
    ensures p.diabetesRisk == diabetesRisk && p.heartDiseaseRisk == heartDiseaseRisk
    ensures p.hypoxiaRisk == hypoxiaRisk
    ensures timestamp.Some? && timestamp.value != "" ==> p.timestamp == timestamp.value
    ensures timestamp.None? || timestamp.value == "" ==> p.timestamp == now
  {
    Prediction(id, healthDataId, diabetesRisk, heartDiseaseRisk, hypoxiaRisk, OrNow(timestamp, now))
  }

  const PredictionKeys: set<string> :=
    {"id", "health_data_id", "diabetes_risk", "heart_disease_risk", "hypoxia_risk", "timestamp"}

  /** Prediction.to_dict */
  function PredictionToDict(p: Prediction): (d: Dict)
    ensures d.Keys == PredictionKeys
  {
    map["id" := Str(p.id), "health_data_id" := Str(p.healthDataId),
        "diabetes_risk" := Num(p.diabetesRisk), "heart_disease_risk" := Num(p.heartDiseaseRisk),
        "hypoxia_risk" := Num(p.hypoxiaRisk), "timestamp" := Str(p.timestamp)]
  }

  function PredictionFromDict(d: Dict): Option<Prediction>
  {
    if && PredictionKeys <= d.Keys
       && d["id"].Str? && d["health_data_id"].Str? && d["timestamp"].Str?
       && d["diabetes_risk"].Num? && d["heart_disease_risk"].Num? && d["hypoxia_risk"].Num?
    then Some(Prediction(d["id"].s, d["health_data_id"].s, d["diabetes_risk"].n,
                         d["heart_disease_risk"].n, d["hypoxia_risk"].n, d["timestamp"].s))
    else None
  }

  lemma PredictionDictRoundTrip(p: Prediction)
    ensures PredictionFromDict(PredictionToDict(p)) == Some(p)
  {
  }

  // ---------------------------------------------------------------- Alert

  /** The state of an alert at one moment: what its to_dict reports, and what
      the durable store keeps as a row. */
  datatype AlertRecord = AlertRecord(
    id: string,
    healthDataId: string,
    message: string,
    condition: string,   // e.g. high_glucose
    severity: string,    // low, medium, high
    timestamp: string,
    acknowledged: bool)

  const AlertKeys: set<string> :=
    {"id", "health_data_id", "message", "condition", "severity", "timestamp", "acknowledged"}

  function AlertRecordToDict(a: AlertRecord): (d: Dict)
    ensures d.Keys == AlertKeys
  {
    map["id" := Str(a.id), "health_data_id" := Str(a.healthDataId), "message" := Str(a.message),
        "condition" := Str(a.condition), "severity" := Str(a.severity),
        "timestamp" := Str(a.timestamp), "acknowledged" := Bool(a.acknowledged)]
  }

  function AlertFromDict(d: Dict): Option<AlertRecord>
  {
    if && AlertKeys <= d.Keys
       && d["id"].Str? && d["health_data_id"].Str? && d["message"].Str?
       && d["condition"].Str? && d["severity"].Str? && d["timestamp"].Str?
       && d["acknowledged"].Bool?
    then Some(AlertRecord(d["id"].s, d["health_data_id"].s, d["message"].s, d["condition"].s,
                          d["severity"].s, d["timestamp"].s, d["acknowledged"].b))
    else None
  }

  lemma AlertDictRoundTrip(a: AlertRecord)
    ensures AlertFromDict(AlertRecordToDict(a)) == Some(a)
  {
  }

  class Alert {
    const id: string
    const healthDataId: string
    const message: string
    const condition: string
    const severity: string
    const timestamp: string
    var acknowledged: bool

    /** Alert.__init__: a new alert is never acknowledged. */
    constructor (id: string, healthDataId: string, message: string, condition: string,
                 severity: string, timestamp: Option<string>, now: string)
      ensures this.id == id && this.healthDataId == healthDataId && this.message == message
      ensures this.condition == condition && this.severity == severity
      ensures this.timestamp == OrNow(timestamp, now)
      ensures !acknowledged
    {
      this.id := id;
      this.healthDataId := healthDataId;
      this.message := message;
      this.condition := condition;
      this.severity := severity;
      this.timestamp := OrNow(timestamp, now);
      this.acknowledged := false;
    }

    function View(): AlertRecord
      reads this
    {
      AlertRecord(id, healthDataId, message, condition, severity, timestamp, acknowledged)
    }

    /** Alert.to_dict: reports the flag as it is now, so after an acknowledgement
        it reports true. */
    function ToDict(): (d: Dict)
      reads this
      ensures d.Keys == AlertKeys
      ensures d["acknowledged"] == Bool(acknowledged)
      ensures AlertFromDict(d) == Some(View())
    {
      AlertRecordToDict(View())
    }
  }

  /** The current records of a list of alert objects, in list order. */
  function AlertViews(s: seq<Alert>): (r: seq<AlertRecord>)
    reads s
    ensures |r| == |s|
    ensures forall i :: 0 <= i < |s| ==> r[i] == s[i].View()
  {
    if s == [] then [] else [s[0].View()] + AlertViews(s[1..])
  }
}
