/** backend/routes/dashboard.js: `GET /dashboard`, a snapshot computed on
    every request from the three collections and the request time `now`. */
module Dashboard {
  import opened Common
  import opened Sequences
  import opened Schemas
  import opened Store
  import AlertRoutes

  const Day := 24 * 60 * 60 * 1000
  const Week := 7 * Day

  const WaterSliceLimit := 10
  const CaseSliceLimit := 20
  const AlertSliceLimit := 10

  /** One `$group` result: the mean pH and turbidity over a window. */
  datatype WaterAverage = WaterAverage(avgPH: real, avgTurbidity: real)

  datatype Stats = Stats(
    totalCases: nat,
    activeSensors: nat,
    activeAlerts: nat,
    avgWaterQuality: seq<WaterAverage>)

  datatype WeatherBlock = WeatherBlock(temperature: real, humidity: real, rainfall: real, forecast: string)

  datatype Snapshot = Snapshot(
    waterData: seq<WaterReading>,
    healthCases: seq<HealthCase>,
    alerts: seq<Alert>,
    stats: Stats,
    weather: WeatherBlock)

  /** The mock weather block, from three `Math.random()` draws. */
  function MockWeather(u1: real, u2: real, u3: real): (w: WeatherBlock)
    requires 0.0 <= u1 < 1.0 && 0.0 <= u2 < 1.0 && 0.0 <= u3 < 1.0
    ensures 28.0 <= w.temperature < 38.0 && 60.0 <= w.humidity < 90.0 && 0.0 <= w.rainfall < 50.0
  {
    WeatherBlock(28.0 + u1 * 10.0, 60.0 + u2 * 30.0, u3 * 50.0, "Partly cloudy with chance of rain")
  }

  /** `{ timestamp: { $gte: since } }`: a lower bound only. */
  function WaterSince(store: seq<WaterReading>, since: int): (w: seq<WaterReading>)
    ensures forall r :: r in w <==> r in store && r.timestamp >= since
  {
    Filter(store, (r: WaterReading) => r.timestamp >= since)
  }

  function CasesSince(store: seq<HealthCase>, since: int): (c: seq<HealthCase>)
    ensures forall h :: h in c <==> h in store && h.timestamp >= since
  {
    Filter(store, (h: HealthCase) => h.timestamp >= since)
  }

  /** `WaterData.distinct('sensorId', …)`. */
  function SensorIds(w: seq<WaterReading>): set<string> {
    set r | r in w :: r.sensorId
  }

  lemma {:induction false} SensorIdsAtMostReadings(w: seq<WaterReading>)
    ensures |SensorIds(w)| <= |w|
  {
    if w != [] {
      var init := w[..|w| - 1];
      SensorIdsAtMostReadings(init);
      assert w == init + [w[|w| - 1]];
      assert SensorIds(w) == SensorIds(init) + {w[|w| - 1].sensorId};
    }
  }

  /** A second reading from a sensor already in the window adds nothing. */
  lemma RepeatSensorCountsOnce(w: seq<WaterReading>, r: WaterReading)
    requires exists x :: x in w && x.sensorId == r.sensorId
    ensures SensorIds(w + [r]) == SensorIds(w)
  {
  }

  function PHs(w: seq<WaterReading>): (xs: seq<real>)
    ensures |xs| == |w| && forall i :: 0 <= i < |w| ==> xs[i] == w[i].pH
  {
    seq(|w|, i requires 0 <= i < |w| => w[i].pH)
  }

  function Turbidities(w: seq<WaterReading>): (xs: seq<real>)
    ensures |xs| == |w| && forall i :: 0 <= i < |w| ==> xs[i] == w[i].turbidity
  {
    seq(|w|, i requires 0 <= i < |w| => w[i].turbidity)
  }

  /** The `aggregate` pipeline: no group at all for an empty window, else
      one group holding the two means. */
  function AverageQuality(w: seq<WaterReading>): (groups: seq<WaterAverage>)
    ensures |groups| == if |w| == 0 then 0 else 1
  {
    if |w| == 0 then []
    else [WaterAverage(Mean(PHs(w)), Mean(Turbidities(w)))]
  }

  /** The snapshot of dashboard.js: the newest readings of the last 24
      hours, the newest cases of the last 7 days and the newest active
      alerts, each capped; the statistics over the whole windows, except
      `activeAlerts`, which counts the capped alert slice. */
  function ComposeSnapshot(water: seq<WaterReading>, health: seq<HealthCase>, alerts: seq<Alert>,
                           now: int, weather: WeatherBlock): (s: Snapshot)
    ensures NewestFirst(s.waterData, WaterTime)
            && |s.waterData| == Min(|WaterSince(water, now - Day)|, WaterSliceLimit)
            && multiset(s.waterData) <= multiset(WaterSince(water, now - Day))
            && forall r :: r in s.waterData ==> r in water && r.timestamp >= now - Day
    ensures NewestFirst(s.healthCases, CaseTime)
            && |s.healthCases| == Min(|CasesSince(health, now - Week)|, CaseSliceLimit)
            && multiset(s.healthCases) <= multiset(CasesSince(health, now - Week))
            && forall h :: h in s.healthCases ==> h in health && h.timestamp >= now - Week
    ensures NewestFirst(s.alerts, AlertTime)
            && |s.alerts| == Min(|Filter(alerts, (a: Alert) => a.isActive)|, AlertSliceLimit)
            && multiset(s.alerts) <= multiset(Filter(alerts, (a: Alert) => a.isActive))
            && forall a :: a in s.alerts ==> a in alerts && a.isActive
    // the alerts shown are the newest active ones
    ensures forall a, i :: a in alerts && a.isActive && a !in s.alerts && 0 <= i < |s.alerts|
              ==> AlertTime(a) <= AlertTime(s.alerts[i])
    ensures s.stats == Stats(|CasesSince(health, now - Week)|, |SensorIds(WaterSince(water, now - Day))|,
                             |s.alerts|, AverageQuality(WaterSince(water, now - Day)))
    ensures s.weather == weather
  {
    var water24h := WaterSince(water, now - Day);
    var cases7d := CasesSince(health, now - Week);
    var waterSlice := Newest(water24h, WaterTime, WaterSliceLimit);
    var caseSlice := Newest(cases7d, CaseTime, CaseSliceLimit);
    var recentAlerts := AlertRoutes.ActiveAlerts(alerts, AlertSliceLimit);
    forall r | r in waterSlice ensures r in water24h {
      NewestFromCandidates(water24h, WaterTime, WaterSliceLimit, r);
    }
    forall h | h in caseSlice ensures h in cases7d {
      NewestFromCandidates(cases7d, CaseTime, CaseSliceLimit, h);
    }
    Snapshot(
      waterSlice,
      caseSlice,
      recentAlerts,
      Stats(|cases7d|, |SensorIds(water24h)|, |recentAlerts|, AverageQuality(water24h)),
      weather)
  }

  /** The route: the whole snapshot, or 500 and nothing when the database fails. */
  function GetDashboard(db: Database, now: int, weather: WeatherBlock): (reply: Reply<Snapshot>)
    reads db
    ensures db.reachable ==> reply == Reply(200, Data(ComposeSnapshot(db.waterData, db.healthData, db.alerts, now, weather)))
    ensures !db.reachable ==> reply == Reply(500, Error(StorageUnavailable))
  {
    if db.reachable then Reply(200, Data(ComposeSnapshot(db.waterData, db.healthData, db.alerts, now, weather)))
    else Reply(500, Error(StorageUnavailable))
  }

  // ---------------------------------------------------------------------
  // What the snapshot promises.
  // ---------------------------------------------------------------------

  /** The slice holds the newest readings of the window: a reading of the
      window left out is no newer than any reading shown. */
  lemma WaterSliceIsNewest(water: seq<WaterReading>, health: seq<HealthCase>, alerts: seq<Alert>,
                           now: int, weather: WeatherBlock, left: WaterReading, i: int)
    requires var s := ComposeSnapshot(water, health, alerts, now, weather);
             left in water && left.timestamp >= now - Day && left !in s.waterData && 0 <= i < |s.waterData|
    ensures left.timestamp <= ComposeSnapshot(water, health, alerts, now, weather).waterData[i].timestamp
  {
    NewestOmitsOnlyOlder(WaterSince(water, now - Day), WaterTime, WaterSliceLimit, left, i);
  }

  /** The slice holds the newest cases of the window: a case of the week
      left out is no newer than any case shown. */
  lemma CaseSliceIsNewest(water: seq<WaterReading>, health: seq<HealthCase>, alerts: seq<Alert>,
                          now: int, weather: WeatherBlock, left: HealthCase, i: int)
    requires var s := ComposeSnapshot(water, health, alerts, now, weather);
             left in health && left.timestamp >= now - Week && left !in s.healthCases && 0 <= i < |s.healthCases|
    ensures left.timestamp <= ComposeSnapshot(water, health, alerts, now, weather).healthCases[i].timestamp
  {
    NewestOmitsOnlyOlder(CasesSince(health, now - Week), CaseTime, CaseSliceLimit, left, i);
  }

  /** `totalCases` counts the whole 7-day window, so it is never below the
      length of the capped case slice. */
  lemma TotalCasesCoversSlice(water: seq<WaterReading>, health: seq<HealthCase>, alerts: seq<Alert>,
                              now: int, weather: WeatherBlock)
    ensures var s := ComposeSnapshot(water, health, alerts, now, weather);
            s.stats.totalCases == |CasesSince(health, now - Week)| && s.stats.totalCases >= |s.healthCases|
  {
  }

  /** `activeAlerts` is the length of the capped alert slice: it never
      exceeds 10, however many alerts are active. */
  lemma ActiveAlertsCapped(water: seq<WaterReading>, health: seq<HealthCase>, alerts: seq<Alert>,
                           now: int, weather: WeatherBlock)
    ensures var s := ComposeSnapshot(water, health, alerts, now, weather);
            s.stats.activeAlerts == |s.alerts| <= AlertSliceLimit
            && s.stats.activeAlerts == Min(|Filter(alerts, (a: Alert) => a.isActive)|, AlertSliceLimit)
  {
  }

  /** `activeSensors` counts distinct sensor ids of the 24-hour window, so
      it is at most the number of readings in that window. */
  lemma ActiveSensorsBounded(water: seq<WaterReading>, health: seq<HealthCase>, alerts: seq<Alert>,
                             now: int, weather: WeatherBlock)
    ensures var s := ComposeSnapshot(water, health, alerts, now, weather);
            s.stats.activeSensors == |SensorIds(WaterSince(water, now - Day))|
            && s.stats.activeSensors <= |WaterSince(water, now - Day)|
  {
    SensorIdsAtMostReadings(WaterSince(water, now - Day));
  }

  /** `avgWaterQuality` is empty exactly when the 24-hour window is empty;
      otherwise its one entry holds means that lie within the bounds of
      the readings averaged. */
  lemma AverageQualityMeaning(w: seq<WaterReading>, phLo: real, phHi: real, tLo: real, tHi: real)
    requires forall r :: r in w ==> phLo <= r.pH <= phHi && tLo <= r.turbidity <= tHi
    ensures AverageQuality(w) == [] <==> w == []
    ensures w != [] ==> phLo <= AverageQuality(w)[0].avgPH <= phHi
    ensures w != [] ==> tLo <= AverageQuality(w)[0].avgTurbidity <= tHi
  {
    if w != [] {
      MeanBounds(PHs(w), phLo, phHi);
      MeanBounds(Turbidities(w), tLo, tHi);
    }
  }

  /** The windows have no upper bound: a reading stamped after `now` is
      still in the 24-hour window. */
  lemma FutureReadingsCount(water: seq<WaterReading>, r: WaterReading, now: int)
    requires r in water && r.timestamp > now
    ensures r in WaterSince(water, now - Day)
  {
  }
}
