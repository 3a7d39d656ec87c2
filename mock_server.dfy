/** backend/simple-server.js: the database-free demo server. Its three
    collections are module-level arrays grown with `push`; documents are
    the JSON bodies as received, plus a timestamp. The risk of `/api/predict`
    is `Math.random() * 0.8`, passed in here as integer thousandths. */
module MockServer {
  import opened Common
  import AlertRoutes
  import Schemas

  type Doc = map<string, Json>

  /** The factors every mock prediction reports. */
  const MockFactors := [JStr("High contamination levels"), JStr("Recent cases in area")]

  /** `{ ...req.body, timestamp: new Date() }`: the body, with the server's
      time replacing any timestamp it carried. */
  function Stamped(body: Doc, now: int): (d: Doc)
    ensures "timestamp" in d && d["timestamp"] == JTime(now)
    ensures forall k :: k != "timestamp" ==> (k in d <==> k in body) && (k in body ==> d[k] == body[k])
  {
    body["timestamp" := JTime(now)]
  }

  function DocsJson(docs: seq<Doc>): (j: Json)
    ensures j.JArr? && |j.items| == |docs|
    ensures forall i :: 0 <= i < |docs| ==> j.items[i] == JObj(docs[i])
  {
    JArr(seq(|docs|, i requires 0 <= i < |docs| => JObj(docs[i])))
  }

  /** `riskLevel > 0.6 ? 'high' : riskLevel > 0.3 ? 'medium' : 'low'`. */
  function MockCategory(riskMil: nat): (c: string)
    ensures c == "high" <==> riskMil > 600
    ensures c == "medium" <==> 300 < riskMil <= 600
    ensures c == "low" <==> riskMil <= 300
  {
    if riskMil > 600 then "high" else if riskMil > 300 then "medium" else "low"
  }

  function MockPrediction(riskMil: nat): Json {
    JObj(map[
      "risk_level" := JNum(riskMil as real / 1000.0),
      "risk_category" := JStr(MockCategory(riskMil)),
      "factors" := JArr(MockFactors)])
  }

  /** `req.body.location || 'Unknown'`: any truthy value is kept as is. */
  function LocationOr(body: Doc): (l: Json)
    ensures Truthy(l)
    ensures "location" in body && Truthy(body["location"]) ==> l == body["location"]
  {
    if "location" in body && Truthy(body["location"]) then body["location"] else JStr("Unknown")
  }

  /** The alert `/api/predict` pushes: an outbreak alert, always `high`
      and never `critical`, at a truthy location, stamped with the server
      time; its prediction carries the mock's own category. */
  function MockAlert(riskMil: nat, body: Doc, now: int): (a: Doc)
    ensures a.Keys == {"type", "severity", "location", "message", "prediction", "timestamp"}
    ensures a["type"] == JStr("outbreak") && a["severity"] == JStr("high") && a["severity"] != JStr("critical")
    ensures Truthy(a["location"]) && a["timestamp"] == JTime(now)
    ensures a["prediction"].JObj? && "risk_category" in a["prediction"].fields
            && a["prediction"].fields["risk_category"] == JStr(MockCategory(riskMil))
  {
    map[
      "type" := JStr("outbreak"),
      "severity" := JStr("high"),
      "location" := LocationOr(body),
      "message" := JStr(AlertRoutes.OutbreakMessage(riskMil)),
      "prediction" := MockPrediction(riskMil),
      "timestamp" := JTime(now)]
  }

  /** The fields `/api/sensor/status` copies from the last reading; a
      field the reading lacks is absent, as `JSON.stringify` drops `undefined`. */
  function CurrentReading(last: Doc): (r: Doc)
    ensures forall k :: k in r <==> k in last && k in {"pH", "turbidity", "contaminationLevel", "location"}
    ensures forall k :: k in r ==> r[k] == last[k]
  {
    map k | k in last && k in {"pH", "turbidity", "contaminationLevel", "location"} :: last[k]
  }

  /** The dashboard's fixed figures: never recomputed from the arrays. */
  const DashboardStats: Json := JObj(map[
    "activeSensors" := JNum(2.0), "totalCases" := JNum(1.0), "activeAlerts" := JNum(1.0),
    "avgWaterQuality" := JArr([JObj(map["avgPH" := JNum(7.0), "avgTurbidity" := JNum(3.8)])])])

  const DashboardWeather: Json := JObj(map[
    "temperature" := JNum(28.5), "humidity" := JNum(75.0), "rainfall" := JNum(12.0),
    "forecast" := JStr("Partly cloudy")])

  function Success(field: string, value: Json): Json {
    JObj(map["success" := JBool(true), field := value])
  }

  function SeedWaterData(loadTime: int): seq<Doc> {
    [map["sensorId" := JStr("S1"), "location" := JStr("Guwahati"), "pH" := JNum(7.2),
         "turbidity" := JNum(3.5), "contaminationLevel" := JNum(25.0), "timestamp" := JTime(loadTime)],
     map["sensorId" := JStr("S2"), "location" := JStr("Shillong"), "pH" := JNum(6.8),
         "turbidity" := JNum(4.2), "contaminationLevel" := JNum(30.0), "timestamp" := JTime(loadTime)]]
  }

  function SeedHealthData(loadTime: int): seq<Doc> {
    [map["patientId" := JStr("P1"), "location" := JStr("Guwahati"),
         "symptoms" := JArr([JStr("fever"), JStr("diarrhea")]), "disease" := JStr("gastroenteritis"),
         "severity" := JStr("mild"), "timestamp" := JTime(loadTime)]]
  }

  function SeedAlerts(loadTime: int): seq<Doc> {
    [map["type" := JStr("water_quality"), "severity" := JStr("medium"), "location" := JStr("Guwahati"),
         "message" := JStr("pH levels slightly elevated"), "timestamp" := JTime(loadTime)]]
  }

  class Server {
    var waterData: seq<Doc>
    var healthData: seq<Doc>
    var alerts: seq<Doc>

    /** The seed documents, all stamped with the load time. */
    constructor (loadTime: int)
      ensures waterData == SeedWaterData(loadTime)
      ensures healthData == SeedHealthData(loadTime)
      ensures alerts == SeedAlerts(loadTime)
    {
      waterData := SeedWaterData(loadTime);
      healthData := SeedHealthData(loadTime);
      alerts := SeedAlerts(loadTime);
    }

    function Dashboard(): (j: Json)
      reads this
      ensures j.JObj? && "data" in j.fields && j.fields["data"].JObj?
      ensures var data := j.fields["data"].fields;
              "stats" in data && data["stats"] == DashboardStats
              && "alerts" in data && data["alerts"] == DocsJson(alerts)
              && "waterData" in data && data["waterData"] == DocsJson(waterData)
              && "healthCases" in data && data["healthCases"] == DocsJson(healthData)
    {
      Success("data", JObj(map[
        "waterData" := DocsJson(waterData),
        "healthCases" := DocsJson(healthData),
        "alerts" := DocsJson(alerts),
        "stats" := DashboardStats,
        "weather" := DashboardWeather]))
    }

    /** `GET /api/alerts`: every alert, seeded or pushed, in push order. */
    function GetAlerts(): (j: Json)
      reads this
      ensures j.JObj? && "data" in j.fields && j.fields["data"].JArr?
      ensures |j.fields["data"].items| == |alerts|
      ensures forall i :: 0 <= i < |alerts| ==> j.fields["data"].items[i] == JObj(alerts[i])
    {
      Success("data", DocsJson(alerts))
    }

    /** `GET /api/sensor/status`, with the connection draw as `connected`:
        the current reading is the last water document posted. */
    function SensorStatus(connected: bool, now: int): (j: Json)
      reads this
      ensures j.JObj? && j.fields.Keys == {"success", "connected", "lastUpdate", "currentReading"}
      ensures j.fields["lastUpdate"] == JNull <==> !connected
      ensures j.fields["currentReading"] != JNull <==> connected && |waterData| > 0
      ensures connected && |waterData| > 0 ==>
                j.fields["currentReading"] == JObj(CurrentReading(waterData[|waterData| - 1]))
    {
      JObj(map[
        "success" := JBool(true),
        "connected" := JBool(connected),
        "lastUpdate" := if connected then JTime(now) else JNull,
        "currentReading" :=
          if connected && |waterData| > 0 then JObj(CurrentReading(waterData[|waterData| - 1])) else JNull])
    }

    /** `POST /api/water-data`: exactly one document appended; the reply echoes the body. */
    method PostWaterData(body: Doc, now: int) returns (reply: Json)
      modifies this`waterData
      ensures waterData == old(waterData) + [Stamped(body, now)]
      ensures reply == Success("data", JObj(body))
    {
      waterData := waterData + [body["timestamp" := JTime(now)]];
      reply := Success("data", JObj(body));
    }

    /** `POST /api/health-data`: the same, on the health array. */
    method PostHealthData(body: Doc, now: int) returns (reply: Json)
      modifies this`healthData
      ensures healthData == old(healthData) + [Stamped(body, now)]
      ensures reply == Success("data", JObj(body))
    {
      healthData := healthData + [body["timestamp" := JTime(now)]];
      reply := Success("data", JObj(body));
    }

    /** `POST /api/predict`: an outbreak alert is pushed exactly when the
        drawn risk is above 0.7. */
    method Predict(riskMil: nat, body: Doc, now: int) returns (reply: Json)
      requires riskMil < 800
      modifies this`alerts
      ensures riskMil > AlertRoutes.AlertThresholdMil ==> alerts == old(alerts) + [MockAlert(riskMil, body, now)]
      ensures riskMil <= AlertRoutes.AlertThresholdMil ==> alerts == old(alerts)
      ensures reply == Success("prediction", MockPrediction(riskMil))
    {
      var prediction := MockPrediction(riskMil);
      if riskMil > 700 {
        alerts := alerts + [MockAlert(riskMil, body, now)];
      }
      reply := Success("prediction", prediction);
    }
  }

  /** A high draw followed by `GET /api/alerts`: the new alert is listed
      last, after every earlier one. */
  method PredictThenList(server: Server, riskMil: nat, body: Doc, now: int) returns (listed: Json)
    requires 700 < riskMil < 800
    modifies server`alerts
    ensures listed.JObj? && "data" in listed.fields && listed.fields["data"].JArr?
    ensures var items := listed.fields["data"].items;
            |items| == |old(server.alerts)| + 1
            && items[|items| - 1] == JObj(MockAlert(riskMil, body, now))
            && forall i :: 0 <= i < |old(server.alerts)| ==> items[i] == JObj(old(server.alerts)[i])
  {
    var _ := server.Predict(riskMil, body, now);
    listed := server.GetAlerts();
  }

  /** A reading posted and then a connected `GET /api/sensor/status`:
      the status shows the fields of the reading just posted. */
  method PostThenStatus(server: Server, body: Doc, now: int, later: int) returns (status: Json)
    modifies server`waterData
    ensures status.JObj? && "lastUpdate" in status.fields && "currentReading" in status.fields
    ensures status.fields["lastUpdate"] == JTime(later)
    ensures status.fields["currentReading"] == JObj(CurrentReading(Stamped(body, now)))
  {
    var _ := server.PostWaterData(body, now);
    status := server.SensorStatus(true, later);
  }

  /** Every alert the mock raises carries the `high` category too, since
      the alert threshold 0.7 lies above the category threshold 0.6. */
  lemma MockAlertIsHighCategory(riskMil: nat, body: Doc, now: int)
    requires riskMil > AlertRoutes.AlertThresholdMil
    ensures MockAlert(riskMil, body, now)["prediction"].fields["risk_category"] == JStr("high")
    ensures MockAlert(riskMil, body, now)["severity"] == JStr("high")
  {
  }

  /** On every risk the mock can draw, it agrees with the real `/predict`
      route: the same alert/no-alert decision, the same severity (the draw
      never reaches the critical threshold 0.9), the same message. */
  lemma MockAgreesWithRoute(riskMil: nat, location: string, now: int)
    requires riskMil < 800 && |location| > 0
    ensures var routed := AlertRoutes.DeriveAlert(Schemas.Prediction(riskMil, "high", []), Some(location), now);
            (routed.Some? <==> riskMil > AlertRoutes.AlertThresholdMil)
            && (routed.Some? ==>
                  routed.value.severity == Schemas.High
                  && JStr(routed.value.message) == MockAlert(riskMil, map["location" := JStr(location)], now)["message"]
                  && JStr(routed.value.location) == MockAlert(riskMil, map["location" := JStr(location)], now)["location"])
  {
  }
}
