/** The three document schemas of the backend (the files under backend/models), each
    as a validator from a request body to a stored document. A body is a
    "draft": every path optional, as it arrives; a document is what
    `save()` stores once the schema's `required` and `enum` validators
    passed and its defaults were filled in. */
module Schemas {
  import opened Common

  /** Mongoose's `required` on a String path: present and not the empty string. */
  predicate HasText(v: Option<string>) {
    v.Some? && |v.value| > 0
  }

  /** `default: Date.now`: a supplied timestamp is kept, a missing one is the save time. */
  function TimestampOr(supplied: Option<int>, now: int): int {
    match supplied
    case Some(t) => t
    case None => now
  }

  // ---------------------------------------------------------------------
  // WaterData
  // ---------------------------------------------------------------------

  datatype WaterDraft = WaterDraft(
    sensorId: Option<string>,
    location: Option<string>,
    pH: Option<real>,
    turbidity: Option<real>,
    contaminationLevel: Option<real>,
    temperature: Option<real>,
    timestamp: Option<int>)

  datatype WaterReading = WaterReading(
    sensorId: string,
    location: string,
    pH: real,
    turbidity: real,
    contaminationLevel: real,
    temperature: Option<real>,
    timestamp: int)

  /** The paths of `d` the schema rejects, in schema order. */
  function WaterProblems(d: WaterDraft): seq<string> {
    (if HasText(d.sensorId) then [] else ["sensorId"])
    + (if HasText(d.location) then [] else ["location"])
    + (if d.pH.Some? then [] else ["pH"])
    + (if d.turbidity.Some? then [] else ["turbidity"])
    + (if d.contaminationLevel.Some? then [] else ["contaminationLevel"])
  }

  function ValidateWater(d: WaterDraft, now: int): (r: Result<WaterReading, seq<string>>)
    ensures r.Ok? <==> HasText(d.sensorId) && HasText(d.location)
                       && d.pH.Some? && d.turbidity.Some? && d.contaminationLevel.Some?
    ensures r.Err? ==> |r.error| > 0 && r.error == WaterProblems(d)
    ensures r.Ok? ==> r.value.timestamp == TimestampOr(d.timestamp, now)
    // every path of the stored reading holds the body's value
    ensures r.Ok? ==> WaterBody(r.value) == d.(timestamp := Some(r.value.timestamp))
  {
    var problems := WaterProblems(d);
    if problems != [] then Err(problems)
    else Ok(WaterReading(d.sensorId.value, d.location.value, d.pH.value, d.turbidity.value,
                         d.contaminationLevel.value, d.temperature, TimestampOr(d.timestamp, now)))
  }

  /** The body that carries every path of a stored reading. */
  function WaterBody(w: WaterReading): WaterDraft {
    WaterDraft(Some(w.sensorId), Some(w.location), Some(w.pH), Some(w.turbidity),
               Some(w.contaminationLevel), w.temperature, Some(w.timestamp))
  }

  /** Saving the full body of a reading stores that same reading, at any
      pH, turbidity or contamination level: the schema sets no bounds. */
  lemma WaterRoundTrip(w: WaterReading, now: int)
    requires |w.sensorId| > 0 && |w.location| > 0
    ensures ValidateWater(WaterBody(w), now) == Ok(w)
  {
  }

  /** A body missing a required path is rejected, naming that path. */
  lemma WaterRequiredPaths(d: WaterDraft, now: int)
    ensures !HasText(d.sensorId) ==> ValidateWater(d, now).Err? && "sensorId" in ValidateWater(d, now).error
    ensures !HasText(d.location) ==> ValidateWater(d, now).Err? && "location" in ValidateWater(d, now).error
    ensures d.pH.None? ==> ValidateWater(d, now).Err? && "pH" in ValidateWater(d, now).error
    ensures d.turbidity.None? ==> ValidateWater(d, now).Err? && "turbidity" in ValidateWater(d, now).error
    ensures d.contaminationLevel.None? ==> ValidateWater(d, now).Err? && "contaminationLevel" in ValidateWater(d, now).error
  {
  }

  // ---------------------------------------------------------------------
  // HealthData
  // ---------------------------------------------------------------------

  datatype CaseSeverity = Mild | Moderate | Severe

  function CaseSeverityName(s: CaseSeverity): string {
    match s
    case Mild => "mild"
    case Moderate => "moderate"
    case Severe => "severe"
  }

  /** The `enum` validator of `severity`. */
  function ParseCaseSeverity(s: string): (r: Option<CaseSeverity>)
    ensures r.Some? ==> CaseSeverityName(r.value) == s
    ensures r.None? ==> forall v :: CaseSeverityName(v) != s
  {
    if s == "mild" then Some(Mild)
    else if s == "moderate" then Some(Moderate)
    else if s == "severe" then Some(Severe)
    else None
  }

  datatype HealthDraft = HealthDraft(
    patientId: Option<string>,
    location: Option<string>,
    symptoms: Option<seq<string>>,
    disease: Option<string>,
    severity: Option<string>,
    age: Option<real>,
    gender: Option<string>,
    reportedBy: Option<string>,
    timestamp: Option<int>)

  datatype HealthCase = HealthCase(
    patientId: string,
    location: string,
    symptoms: seq<string>,
    disease: Option<string>,
    severity: Option<CaseSeverity>,
    age: Option<real>,
    gender: Option<string>,
    reportedBy: Option<string>,
    timestamp: int)

  /** An absent severity passes the `enum` validator; a present one must be listed. */
  predicate SeverityAccepted(s: Option<string>) {
    s.None? || ParseCaseSeverity(s.value).Some?
  }

  function HealthProblems(d: HealthDraft): seq<string> {
    (if HasText(d.patientId) then [] else ["patientId"])
    + (if HasText(d.location) then [] else ["location"])
    + (if SeverityAccepted(d.severity) then [] else ["severity"])
  }

  function ValidateHealth(d: HealthDraft, now: int): (r: Result<HealthCase, seq<string>>)
    ensures r.Ok? <==> HasText(d.patientId) && HasText(d.location) && SeverityAccepted(d.severity)
    ensures r.Err? ==> |r.error| > 0 && r.error == HealthProblems(d)
    ensures r.Ok? ==> r.value.symptoms == (if d.symptoms.Some? then d.symptoms.value else [])
                      && r.value.timestamp == TimestampOr(d.timestamp, now)
    // every other path of the stored case holds the body's value, severity included
    ensures r.Ok? ==> HealthBody(r.value) == d.(symptoms := Some(r.value.symptoms),
                                                timestamp := Some(r.value.timestamp))
  {
    var problems := HealthProblems(d);
    if problems != [] then Err(problems)
    else Ok(HealthCase(d.patientId.value, d.location.value,
                       if d.symptoms.Some? then d.symptoms.value else [],
                       d.disease,
                       if d.severity.Some? then ParseCaseSeverity(d.severity.value) else None,
                       d.age, d.gender, d.reportedBy, TimestampOr(d.timestamp, now)))
  }

  function HealthBody(h: HealthCase): HealthDraft {
    HealthDraft(Some(h.patientId), Some(h.location), Some(h.symptoms), h.disease,
                if h.severity.Some? then Some(CaseSeverityName(h.severity.value)) else None,
                h.age, h.gender, h.reportedBy, Some(h.timestamp))
  }

  /** Saving the full body of a case stores that same case; its symptom
      list is kept as given, duplicates and order included. */
  lemma HealthRoundTrip(h: HealthCase, now: int)
    requires |h.patientId| > 0 && |h.location| > 0
    ensures ValidateHealth(HealthBody(h), now) == Ok(h)
  {
    if h.severity.Some? {
      assert ParseCaseSeverity(CaseSeverityName(h.severity.value)) == h.severity;
    }
  }

  /** The empty string is not an allowed severity, so a body that carries
      `severity: ''` is rejected even though the path is optional. */
  lemma EmptySeverityRejected(d: HealthDraft, now: int)
    requires d.severity == Some("")
    ensures ValidateHealth(d, now) == Err(HealthProblems(d)) && "severity" in HealthProblems(d)
  {
    assert ParseCaseSeverity("") == None;
  }

  // ---------------------------------------------------------------------
  // Alert
  // ---------------------------------------------------------------------

  datatype AlertType = Outbreak | WaterQuality | Weather

  datatype AlertSeverity = Low | Medium | High | Critical

  function AlertTypeName(t: AlertType): string {
    match t
    case Outbreak => "outbreak"
    case WaterQuality => "water_quality"
    case Weather => "weather"
  }

  function AlertSeverityName(s: AlertSeverity): string {
    match s
    case Low => "low"
    case Medium => "medium"
    case High => "high"
    case Critical => "critical"
  }

  function ParseAlertType(s: string): (r: Option<AlertType>)
    ensures r.Some? ==> AlertTypeName(r.value) == s
    ensures r.None? ==> forall t :: AlertTypeName(t) != s
  {
    if s == "outbreak" then Some(Outbreak)
    else if s == "water_quality" then Some(WaterQuality)
    else if s == "weather" then Some(Weather)
    else None
  }

  function ParseAlertSeverity(s: string): (r: Option<AlertSeverity>)
    ensures r.Some? ==> AlertSeverityName(r.value) == s
    ensures r.None? ==> forall v :: AlertSeverityName(v) != s
  {
    if s == "low" then Some(Low)
    else if s == "medium" then Some(Medium)
    else if s == "high" then Some(High)
    else if s == "critical" then Some(Critical)
    else None
  }

  /** The result of the prediction service, kept opaque on an alert. The
      risk is in thousandths (`risk_level * 1000`). */
  datatype Prediction = Prediction(riskMil: nat, category: string, factors: seq<string>)

  datatype AlertDraft = AlertDraft(
    kind: Option<string>,
    severity: Option<string>,
    location: Option<string>,
    message: Option<string>,
    prediction: Option<Prediction>,
    isActive: Option<bool>,
    timestamp: Option<int>)

  datatype Alert = Alert(
    kind: AlertType,
    severity: AlertSeverity,
    location: string,
    message: string,
    prediction: Option<Prediction>,
    isActive: bool,
    timestamp: int)

  /** `type` and `severity` are both `required` and `enum`. */
  predicate EnumAccepted<E>(v: Option<string>, parse: string -> Option<E>) {
    HasText(v) && parse(v.value).Some?
  }

  function AlertProblems(d: AlertDraft): seq<string> {
    (if EnumAccepted(d.kind, ParseAlertType) then [] else ["type"])
    + (if EnumAccepted(d.severity, ParseAlertSeverity) then [] else ["severity"])
    + (if HasText(d.location) then [] else ["location"])
    + (if HasText(d.message) then [] else ["message"])
  }

  function ValidateAlert(d: AlertDraft, now: int): (r: Result<Alert, seq<string>>)
    ensures r.Ok? <==> EnumAccepted(d.kind, ParseAlertType) && EnumAccepted(d.severity, ParseAlertSeverity)
                       && HasText(d.location) && HasText(d.message)
    ensures r.Err? ==> |r.error| > 0 && r.error == AlertProblems(d)
    ensures r.Ok? ==> AlertTypeName(r.value.kind) == d.kind.value
                      && AlertSeverityName(r.value.severity) == d.severity.value
                      && r.value.location == d.location.value && r.value.message == d.message.value
                      && r.value.prediction == d.prediction
                      && r.value.isActive == (d.isActive != Some(false))
                      && r.value.timestamp == TimestampOr(d.timestamp, now)
  {
    var problems := AlertProblems(d);
    if problems != [] then Err(problems)
    else Ok(Alert(ParseAlertType(d.kind.value).value, ParseAlertSeverity(d.severity.value).value,
                  d.location.value, d.message.value, d.prediction,
                  if d.isActive.Some? then d.isActive.value else true,
                  TimestampOr(d.timestamp, now)))
  }

  function AlertBody(a: Alert): AlertDraft {
    AlertDraft(Some(AlertTypeName(a.kind)), Some(AlertSeverityName(a.severity)), Some(a.location),
               Some(a.message), a.prediction, Some(a.isActive), Some(a.timestamp))
  }

  lemma AlertRoundTrip(a: Alert, now: int)
    requires |a.location| > 0 && |a.message| > 0
    ensures ValidateAlert(AlertBody(a), now) == Ok(a)
  {
    assert ParseAlertType(AlertTypeName(a.kind)) == Some(a.kind);
    assert ParseAlertSeverity(AlertSeverityName(a.severity)) == Some(a.severity);
  }

  /** A body with neither `isActive` nor `timestamp` is stored active, at the save time. */
  lemma AlertDefaults(d: AlertDraft, now: int)
    requires d.isActive.None? && d.timestamp.None?
    requires ValidateAlert(d, now).Ok?
    ensures ValidateAlert(d, now).value.isActive && ValidateAlert(d, now).value.timestamp == now
  {
  }

  // Timestamps as sort keys.
  function WaterTime(w: WaterReading): int { w.timestamp }
  function CaseTime(h: HealthCase): int { h.timestamp }
  function AlertTime(a: Alert): int { a.timestamp }
}
