/** backend/routes/alerts.js: `GET /alerts` lists active alerts,
    `POST /alerts` saves one alert or answers 400, and `POST /predict`
    asks the prediction service for a risk and raises an outbreak alert
    when that risk is high. */
module AlertRoutes {
  import opened Common
  import opened Sequences
  import opened Schemas
  import opened Store

  /** `GET /alerts` returns at most this many alerts. */
  const AlertListLimit := 50
  /** A risk above 0.7 raises an alert ... */
  const AlertThresholdMil := 700
  /** ... and a risk above 0.9 makes it critical. */
  const CriticalThresholdMil := 900

  /** `Alert.find({ isActive: true }).sort({ timestamp: -1 }).limit(limit)`. */
  function ActiveAlerts(store: seq<Alert>, limit: int): (r: seq<Alert>)
    ensures NewestFirst(r, AlertTime)
    ensures forall a :: a in r ==> a in store && a.isActive
    ensures limit != 0 ==> |r| == Min(|Filter(store, (a: Alert) => a.isActive)|, if limit < 0 then -limit else limit)
    ensures limit == 0 ==> multiset(r) == multiset(Filter(store, (a: Alert) => a.isActive))
    ensures multiset(r) <= multiset(Filter(store, (a: Alert) => a.isActive))
    // the alerts listed are the newest active ones
    ensures forall a, i :: a in store && a.isActive && a !in r && 0 <= i < |r| ==> a.timestamp <= r[i].timestamp
  {
    var active := Filter(store, (a: Alert) => a.isActive);
    var r := Newest(active, AlertTime, limit);
    forall a | a in r ensures a in active {
      NewestFromCandidates(active, AlertTime, limit, a);
    }
    forall a, i | a in store && a.isActive && a !in r && 0 <= i < |r| ensures a.timestamp <= r[i].timestamp {
      NewestOmitsOnlyOlder(active, AlertTime, limit, a, i);
    }
    r
  }

  function GetAlerts(reachable: bool, store: seq<Alert>): (reply: Reply<seq<Alert>>)
    ensures reachable ==> reply.status == 200 && reply.body.Data?
                          && reply.body.data == ActiveAlerts(store, AlertListLimit)
                          && |reply.body.data| <= AlertListLimit
    ensures !reachable ==> reply == Reply(500, Error(StorageUnavailable))
  {
    if reachable then Reply(200, Data(ActiveAlerts(store, AlertListLimit)))
    else Reply(500, Error(StorageUnavailable))
  }

  /** An inactive alert is never listed, however new it is. */
  lemma InactiveNeverListed(store: seq<Alert>, a: Alert, limit: int)
    requires !a.isActive
    ensures a !in ActiveAlerts(store, limit)
  {
  }

  method PostAlert(db: Database, body: AlertDraft, now: int) returns (reply: Reply<Alert>)
    modifies db`alerts
    ensures match ValidateAlert(body, now)
      case Ok(a) =>
        if old(db.reachable) then db.alerts == old(db.alerts) + [a] && reply == Reply(201, Data(a))
        else db.alerts == old(db.alerts) && reply == Reply(400, Error(StorageUnavailable))
      case Err(paths) =>
        db.alerts == old(db.alerts) && reply == Reply(400, Error(Invalid(paths)))
  {
    match ValidateAlert(body, now)
    case Ok(a) =>
      if db.reachable {
        db.alerts := db.alerts + [a];
        reply := Reply(201, Data(a));
      } else {
        reply := Reply(400, Error(StorageUnavailable));
      }
    case Err(paths) =>
      reply := Reply(400, Error(Invalid(paths)));
  }

  // ---------------------------------------------------------------------
  // POST /predict
  // ---------------------------------------------------------------------

  /** The prefix of every outbreak message. */
  const OutbreakPrefix := "High outbreak risk detected: "

  /** `High outbreak risk detected: ${(risk_level * 100).toFixed(1)}%`: a
      risk of `riskMil` thousandths is `riskMil` tenths of a percent. */
  function OutbreakMessage(riskMil: nat): (m: string)
    ensures |m| > |OutbreakPrefix| + 1 && m[..|OutbreakPrefix|] == OutbreakPrefix && m[|m| - 1] == '%'
  {
    OutbreakPrefix + Fixed1(riskMil) + "%"
  }

  /** The message carries the risk exactly: the percentage it prints reads
      back as the risk it was made from. */
  lemma OutbreakMessageReadsBack(riskMil: nat)
    ensures var m := OutbreakMessage(riskMil);
            |m| > |OutbreakPrefix| + 1 && m[..|OutbreakPrefix|] == OutbreakPrefix && m[|m| - 1] == '%'
            && ParseFixed1(m[|OutbreakPrefix|..|m| - 1]) == riskMil
  {
    var m := OutbreakMessage(riskMil);
    assert m[|OutbreakPrefix|..|m| - 1] == Fixed1(riskMil);
    Fixed1RoundTrip(riskMil);
  }

  /** A risk of 0.95 reads "95.0%". */
  lemma OutbreakMessageAt95()
    ensures OutbreakMessage(950) == "High outbreak risk detected: 95.0%"
  {
    assert NatToString(95) == "95";
  }

  /** `req.body.location || 'Unknown'`: a missing or empty location
      becomes "Unknown", so the saved alert always has one. */
  function LocationOrUnknown(location: Option<string>): (l: string)
    ensures |l| > 0
    ensures HasText(location) ==> l == location.value
    ensures !HasText(location) ==> l == "Unknown"
  {
    if HasText(location) then location.value else "Unknown"
  }

  /** The body `/predict` hands to `new Alert(...)` for a prediction. */
  function OutbreakBody(p: Prediction, location: Option<string>): AlertDraft {
    AlertDraft(Some("outbreak"),
               Some(if p.riskMil > CriticalThresholdMil then "critical" else "high"),
               Some(LocationOrUnknown(location)),
               Some(OutbreakMessage(p.riskMil)),
               Some(p), None, None)
  }

  /** The alert `/predict` saves for a prediction, if any. */
  function DeriveAlert(p: Prediction, location: Option<string>, now: int): (a: Option<Alert>)
    ensures a.Some? <==> p.riskMil > AlertThresholdMil
    ensures a.Some? ==> a.value.kind == Outbreak
    ensures a.Some? ==> (a.value.severity == Critical <==> p.riskMil > CriticalThresholdMil)
    ensures a.Some? ==> (a.value.severity == High <==> p.riskMil <= CriticalThresholdMil)
    ensures a.Some? ==> a.value.location == LocationOrUnknown(location) && |a.value.location| > 0
    ensures a.Some? ==> a.value.message == OutbreakMessage(p.riskMil)
    ensures a.Some? ==> a.value.prediction == Some(p)
    ensures a.Some? ==> a.value.isActive && a.value.timestamp == now
  {
    if p.riskMil > AlertThresholdMil then
      var checked := ValidateAlert(OutbreakBody(p, location), now);
      assert ParseAlertType("outbreak") == Some(Outbreak);
      assert ParseAlertSeverity("critical") == Some(Critical);
      assert ParseAlertSeverity("high") == Some(High);
      assert checked.Ok?;
      Some(checked.value)
    else None
  }

  /** What the prediction service answered: a result, or a failure of the call. */
  datatype PredictorAnswer = Answered(prediction: Prediction) | Failed(reason: string)

  method Predict(db: Database, location: Option<string>, answer: PredictorAnswer, now: int)
      returns (reply: Reply<Prediction>)
    modifies db`alerts
    ensures answer.Failed? ==>
      db.alerts == old(db.alerts) && reply == Reply(500, Error(PredictorUnavailable(answer.reason)))
    ensures answer.Answered? ==>
      match DeriveAlert(answer.prediction, location, now)
      case None =>
        db.alerts == old(db.alerts) && reply == Reply(200, Data(answer.prediction))
      case Some(a) =>
        if old(db.reachable) then
          db.alerts == old(db.alerts) + [a] && reply == Reply(200, Data(answer.prediction))
        else
          db.alerts == old(db.alerts) && reply == Reply(500, Error(StorageUnavailable))
  {
    match answer
    case Failed(reason) =>
      reply := Reply(500, Error(PredictorUnavailable(reason)));
    case Answered(p) =>
      match DeriveAlert(p, location, now)
      case None =>
        reply := Reply(200, Data(p));
      case Some(a) =>
        if db.reachable {
          db.alerts := db.alerts + [a];
          reply := Reply(200, Data(p));
        } else {
          reply := Reply(500, Error(StorageUnavailable));
        }
  }
}
