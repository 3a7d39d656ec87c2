# AquaRakshak health monitor: a Dafny model of its logic

AquaRakshak (the "Smart Health Monitor") collects water-quality readings and
disease case reports. It raises outbreak alerts from a risk prediction and
serves a dashboard to a browser client that keeps working when the network
is unreliable. This project models the logic under the user interface and
proves properties of it:

- **Backend routes and schemas** (`common.dfy`, `sequences.dfy`, `schemas.dfy`, `store.dfy`,
  `reading_routes.dfy`, `alert_routes.dfy`, `dashboard.dfy`):
  - the three Mongoose schemas as validators with defaults;
  - the MongoDB queries (`find`, `sort({timestamp:-1})`, `limit`, `countDocuments`, `distinct`,
    `$avg`) as functions over the collection sequences;
  - the POST handlers as methods on a `Database` object whose collections they append to;
  - the outbreak-alert rule of `POST /predict`.
- **Client resilience layer** (`api_service.dfy`): a `Client` class holding the URL-keyed
  response cache, `navigator.onLine`, and the requests sent. It covers:
  - the response interceptor;
  - the offline guard on three writes;
  - the fixed fallback payloads of three reads.
- **Connectivity detector** (`offline_detector.dfy`): the two state flags, the three event
  handlers, the render condition, and the invariant that makes the "Connection restored!"
  snackbar unreachable.
- **Share message and data entry** (`share_message.dfy`, `data_entry.dfy`):
  - the `+=` builder of the share text, with its alert loop;
  - the symptom toggle;
  - the two submit handlers of the entry page.
- **Mock server** (`mock_server.dfy`): the in-memory demo server with its append-only arrays.
- **Prediction rules** (`outbreak_model.dfy`, `simple_ml.dfy`):
  - the feature vector, the risk-factor rules, the risk category and the training-label rule of
    the Python predictor;
  - the stand-in predictor's category and factors.

Conventions used throughout:

- Times are integer milliseconds. Each request's clock reading (`now`) is a parameter, and so is
  every `Math.random()` / `random.uniform` draw, the outcome of every network call, and whether
  the database answers.
- Risk levels are integer thousandths (`riskMil`). `(risk * 100).toFixed(1)` is then exactly
  `riskMil / 10` "." `riskMil % 10`, so alert messages are exact strings.
- Share-message readings are integer tenths.

Two facts about what the schemas store:

- The schema sets no numeric bounds: any pH, turbidity and contamination is stored
  (`Schemas.WaterRoundTrip`).
- Symptoms are stored as the array given, with duplicates and order kept
  (`Schemas.HealthRoundTrip`).

Behaviours worth knowing that the proofs make explicit:

- The client cache key is the URL alone, reads and writes alike. So a failed
  `POST /water-data` resolves with whatever was cached for "/water-data" less than five minutes
  ago (`ApiService.FailedWriteResolvesWithCachedRead`). On the entry page, a re-submission lost on
  the network within five minutes of a successful one is therefore reported as a success, and
  the form is cleared (`DataEntry.LostResubmitLooksSuccessful`).
- The dashboard's `activeAlerts` is the length of a list capped at 10, not a count of active
  alerts.
- Its 24-hour and 7-day windows have no upper bound.
- The mock server can never raise a `critical` alert.

## Model

| member | source | states |
|---|---|---|
| Common.NatToString | frontend/src/components/ShareButton.js:39 | a number in a template literal is a non-empty string of decimal digits with no leading zero |
| Common.NatToStringRoundTrip | frontend/src/components/ShareButton.js:49 | reading the printed digits back gives the number printed |
| Common.Fixed1 | backend/routes/alerts.js:39 | `toFixed(1)` of a number of tenths ends in one digit after the point, and starts with '-' exactly for negatives |
| Common.Fixed1RoundTrip | backend/routes/alerts.js:39 | the `toFixed(1)` text of a number of tenths reads back as that number |
| Sequences.Filter | backend/routes/waterData.js:20-21 | `find(filter)` returns a matching document iff one is stored, and no more documents than were stored |
| Sequences.FilterCounts | backend/routes/waterData.js:20-21 | every copy of a matching document is kept and no copy of any other |
| Sequences.FilterKeepsOrder | backend/routes/waterData.js:20-21 | the k-th result is the stored document at position f[k]; the positions increase; every matching position is among them |
| Sequences.FilterAll | backend/routes/waterData.js:20 | an empty filter `{}` keeps every document |
| Sequences.FilterConcat | frontend/src/pages/DataEntry.js:80 | filtering a concatenation filters each part |
| Sequences.FilterShrinks | frontend/src/pages/DataEntry.js:80 | a filter that rejects some element returns a shorter list |
| Sequences.InsertNewest | backend/routes/waterData.js:22 | inserting into a newest-first list keeps it newest-first and adds exactly that element |
| Sequences.SortNewestFirst | backend/routes/waterData.js:22 | `sort({timestamp:-1})` is a newest-first permutation of its input |
| Sequences.MongoLimit | backend/routes/waterData.js:23 | `limit(0)` is no limit; `limit(n)` keeps the first min(count, abs n) documents |
| Sequences.Newest | backend/routes/waterData.js:21-23 | sort-then-limit yields a newest-first sub-multiset, of the limited size, and everything for limit 0 |
| Sequences.NewestFromCandidates | backend/routes/waterData.js:21-23 | every returned document was one of the candidates |
| Sequences.NewestOmitsOnlyOlder | backend/routes/dashboard.js:16-18 | a candidate cut off by the limit is no newer than any returned document |
| Sequences.StrictlyNewestComesFirst | backend/routes/waterData.js:22 | a candidate strictly newer than all others heads the sorted list |
| Sequences.SumBounds | backend/routes/dashboard.js:37 | a sum of n values within [lo, hi] lies within [n*lo, n*hi] |
| Sequences.MeanBounds | backend/routes/dashboard.js:37 | `$avg` of values within [lo, hi] lies within [lo, hi] |
| Schemas.ValidateWater | backend/models/WaterData.js:3-11 | a reading is accepted iff the five required paths are present (strings non-empty), else rejected naming exactly the failing paths; an accepted reading holds every value of the body, with the timestamp defaulting to the save time |
| Schemas.WaterRoundTrip | backend/models/WaterData.js:6-8 | any complete reading is stored unchanged, at any pH/turbidity/contamination: no numeric bounds |
| Schemas.WaterRequiredPaths | backend/models/WaterData.js:4-8 | each missing required path alone causes rejection and is named |
| Schemas.ParseCaseSeverity | backend/models/HealthData.js:8 | the severity enum accepts exactly mild, moderate, severe |
| Schemas.ValidateHealth | backend/models/HealthData.js:3-13 | a case is accepted iff patientId and location are present and a present severity is listed; an accepted case holds every value of the body, severity included, with symptoms defaulting to [] and the timestamp to the save time |
| Schemas.HealthRoundTrip | backend/models/HealthData.js:6 | a complete case, symptom duplicates and order included, is stored unchanged |
| Schemas.EmptySeverityRejected | backend/models/HealthData.js:8 | `severity: ''` is rejected although the path is optional |
| Schemas.ParseAlertType | backend/models/Alert.js:4 | the type enum accepts exactly outbreak, water_quality, weather |
| Schemas.ParseAlertSeverity | backend/models/Alert.js:5 | the severity enum accepts exactly low, medium, high, critical |
| Schemas.ValidateAlert | backend/models/Alert.js:3-11 | an alert is accepted iff type and severity are listed values and location and message are present; isActive defaults to true, timestamp to the save time, prediction is kept verbatim |
| Schemas.AlertRoundTrip | backend/models/Alert.js:3-11 | any complete alert is stored unchanged |
| Schemas.AlertDefaults | backend/models/Alert.js:9-10 | without isActive and timestamp an alert is stored active at the save time |
| Store.LocationFilterMeaning | backend/routes/waterData.js:20 | a missing or empty location does not filter; a non-empty one keeps exactly that location |
| WaterRoutes.WaterQuery | backend/routes/waterData.js:19-23 | newest-first stored readings at the requested location (any when none or empty), each at most as often as stored; exactly min(matches, abs limit) of them, limit 100 by default, all matches for limit 0; any matching reading left out is no newer than every one returned |
| WaterRoutes.GetWaterData | backend/routes/waterData.js:17-28 | 200 with the query result, or 500 when the database fails |
| WaterRoutes.QueryFillsDefaultLimit | backend/routes/waterData.js:19-23 | without a limit, 100 or more matches give exactly 100 results |
| WaterRoutes.UnfilteredUnlimitedReturnsAll | backend/routes/waterData.js:19-23 | no location and `limit=0` return every stored reading |
| WaterRoutes.NewestReadingAnswersLimitOne | backend/routes/waterData.js:19-23 | the strictly newest reading at a location is the answer to `limit=1` there |
| WaterRoutes.PostWaterData | backend/routes/waterData.js:6-14 | a valid body appends exactly one reading and returns 201 with it; an invalid one returns 400 and stores nothing; a database failure stores nothing and returns 400 |
| WaterRoutes.PostThenGetNewest | backend/routes/waterData.js:6-28 | a reading posted after all others at its location is what a later `limit=1` query there returns |
| HealthRoutes.HealthQuery | backend/routes/healthData.js:19-23 | newest-first stored cases at the requested location, each at most as often as stored; exactly min(matches, abs limit) of them, all matches for limit 0; any matching case left out is no newer than every one returned |
| HealthRoutes.GetHealthData | backend/routes/healthData.js:17-28 | 200 with the query result, or 500 when the database fails |
| HealthRoutes.ZeroLimitReturnsAll | backend/routes/healthData.js:19-23 | `limit=0` returns every matching case |
| HealthRoutes.PostHealthData | backend/routes/healthData.js:6-14 | a valid body appends exactly one case and returns 201; otherwise 400 and nothing stored |
| AlertRoutes.ActiveAlerts | backend/routes/alerts.js:9-11 | newest-first stored active alerts, each at most as often as stored, exactly min(active, abs limit) of them, all for limit 0; an active alert left out is no newer than every one listed |
| AlertRoutes.GetAlerts | backend/routes/alerts.js:7-16 | 200 with at most 50 active alerts newest-first, or 500 |
| AlertRoutes.InactiveNeverListed | backend/routes/alerts.js:9 | an inactive alert is never listed |
| AlertRoutes.PostAlert | backend/routes/alerts.js:19-27 | a valid alert is stored and returned with 201; otherwise 400 and nothing stored |
| AlertRoutes.OutbreakMessage | backend/routes/alerts.js:39 | the message is the fixed prefix, a number, and '%' |
| AlertRoutes.OutbreakMessageReadsBack | backend/routes/alerts.js:39 | the message is the fixed prefix, the percentage with one decimal, and '%', and the percentage reads back as the risk |
| AlertRoutes.OutbreakMessageAt95 | backend/routes/alerts.js:39 | a risk of 0.95 gives "High outbreak risk detected: 95.0%" |
| AlertRoutes.LocationOrUnknown | backend/routes/alerts.js:38 | a missing or empty location becomes "Unknown", so the alert's location is never empty; a given one is kept |
| AlertRoutes.DeriveAlert | backend/routes/alerts.js:34-41 | an alert exists iff risk > 0.7; it is an outbreak, critical iff risk > 0.9 else high, at the request location or "Unknown", with the fixed message and the prediction attached, active, at the save time |
| AlertRoutes.Predict | backend/routes/alerts.js:30-49 | a predictor failure gives 500 and no alert; otherwise the derived alert (if any) is appended and the prediction returned; a save failure gives 500 |
| Dashboard.MockWeather | backend/routes/dashboard.js:42-47 | the mock weather lies within 28-38 degrees, 60-90 % humidity, 0-50 mm rain |
| Dashboard.WaterSince | backend/routes/dashboard.js:16 | the 24-hour window holds exactly the readings at or after its start |
| Dashboard.CasesSince | backend/routes/dashboard.js:21 | the 7-day window holds exactly the cases at or after its start |
| Dashboard.SensorIdsAtMostReadings | backend/routes/dashboard.js:33 | there are no more distinct sensor ids than readings |
| Dashboard.RepeatSensorCountsOnce | backend/routes/dashboard.js:33 | another reading from a sensor already present adds no sensor |
| Dashboard.AverageQuality | backend/routes/dashboard.js:35-38 | the aggregate has no entry for an empty window and one entry otherwise |
| Dashboard.ComposeSnapshot | backend/routes/dashboard.js:12-47 | the snapshot holds, each slice a sub-multiset of its window: the newest-first readings of the last 24 h, min(window, 10) of them; the newest-first cases of the last 7 days, min(window, 20); the newest active alerts, newest-first, min(active, 10) of them, so an active alert left out is no newer than any shown; totalCases and activeSensors over the whole windows, activeAlerts as the length of the capped slice, avgWaterQuality over the 24 h window; the weather given |
| Dashboard.GetDashboard | backend/routes/dashboard.js:9-62 | 200 with the whole snapshot, or 500 with no partial data |
| Dashboard.WaterSliceIsNewest | backend/routes/dashboard.js:16-18 | a window reading left out of the slice is no newer than any shown |
| Dashboard.CaseSliceIsNewest | backend/routes/dashboard.js:21-23 | a window case left out of the slice is no newer than any shown |
| Dashboard.TotalCasesCoversSlice | backend/routes/dashboard.js:32 | totalCases counts the whole 7-day window, so it is at least the slice length |
| Dashboard.ActiveAlertsCapped | backend/routes/dashboard.js:26-34 | activeAlerts is the length of the capped list: min(active alerts, 10) |
| Dashboard.ActiveSensorsBounded | backend/routes/dashboard.js:33 | activeSensors is the number of distinct ids in the 24 h window, at most its reading count |
| Dashboard.AverageQualityMeaning | backend/routes/dashboard.js:35-38 | empty iff the window is empty; otherwise the mean pH and turbidity lie within the bounds of the readings |
| Dashboard.FutureReadingsCount | backend/routes/dashboard.js:16 | a reading stamped after `now` still falls in the window |
| ApiService.Remember | frontend/src/services/api.js:46-53 | a response overwrites the entry of its URL with the receive time; other entries and failures leave the cache as it was |
| ApiService.Settle | frontend/src/services/api.js:55-64 | a response resolves; a failure resolves with the cached payload iff the entry is strictly younger than 5 minutes, and otherwise rejects with the original error |
| ApiService.CacheAnswersWithinDuration | frontend/src/services/api.js:59 | a payload received at t0 answers a failure at t0+d exactly when d < 5 min |
| ApiService.CacheScenario | frontend/src/services/api.js:11 | 4 minutes after: cached payload; at exactly 5 and at 6 minutes: the error |
| ApiService.LastResponseWins | frontend/src/services/api.js:48-52 | only the latest response for a URL is ever served from the cache |
| ApiService.FailedWriteResolvesWithCachedRead | frontend/src/services/api.js:79-88 | a failed POST /water-data resolves with a GET /water-data payload cached under 5 min ago |
| ApiService.Client.constructor | frontend/src/services/api.js:10 | the cache starts empty and nothing has been sent |
| ApiService.Client.Send | frontend/src/services/api.js:46-65 | one request is recorded, the cache updated as Remember, the outcome as Settle |
| ApiService.Client.SetOnline | frontend/src/services/api.js:81 | `navigator.onLine` follows the browser |
| ApiService.Client.GetWithFallback | frontend/src/services/api.js:69-76 | a read that yields the live or cached payload, otherwise the fallback |
| ApiService.Client.GetDashboardData | frontend/src/services/api.js:69-76 | never fails: live or cached data, else the fixed dashboard fallback |
| ApiService.Client.GetAlerts | frontend/src/services/api.js:107-114 | never fails: live or cached data, else the fixed alerts fallback |
| ApiService.Client.GetSensorStatus | frontend/src/services/api.js:131-138 | never fails: live or cached data, else the disconnected-sensor fallback |
| ApiService.Client.GuardedPost | frontend/src/services/api.js:79-88 | offline: rejected, nothing sent, cache untouched; online: sent through the interceptor |
| ApiService.Client.SubmitWaterData | frontend/src/services/api.js:79-88 | offline: "Cannot submit data while offline" without a request; online: POST /water-data |
| ApiService.Client.SubmitHealthData | frontend/src/services/api.js:93-102 | offline: rejected without a request; online: POST /health-data |
| ApiService.Client.TriggerPrediction | frontend/src/services/api.js:119-128 | offline: "Cannot run predictions while offline" without a request; online: POST /predict |
| ApiService.Client.CreateAlert | frontend/src/services/api.js:116 | no offline guard and no fallback |
| ApiService.Client.GetWaterData | frontend/src/services/api.js:90 | the query parameters are not part of the cache key |
| ApiService.Client.GetHealthData | frontend/src/services/api.js:104 | the query parameters are not part of the cache key |
| ApiService.DashboardCacheWalkthrough | frontend/src/services/api.js:69-76 | success, then failures at 4 and 6 minutes: cached dashboard, then the fallback |
| ApiService.OfflineSubmitWalkthrough | frontend/src/services/api.js:79-88 | an offline submit is rejected and sends nothing |
| OfflineDetector.Detector.constructor | frontend/src/components/OfflineDetector.js:6-7 | starts from `navigator.onLine` with the message flag off, in the invariant |
| OfflineDetector.Detector.HandleOnline | frontend/src/components/OfflineDetector.js:10-13 | online, message off, invariant kept |
| OfflineDetector.Detector.HandleOffline | frontend/src/components/OfflineDetector.js:15-18 | offline, message on, invariant kept |
| OfflineDetector.Detector.CloseSnackbar | frontend/src/components/OfflineDetector.js:58 | only the message flag is cleared |
| OfflineDetector.Detector.Handle | frontend/src/components/OfflineDetector.js:10-18 | each event sets connectivity as announced; the offline message flag is raised exactly by going offline and cleared by going online or closing the snackbar; the invariant is kept |
| OfflineDetector.Detector.Render | frontend/src/components/OfflineDetector.js:29-68 | the banner shows iff offline, and the "Connection restored!" snackbar is never open |
| OfflineDetector.AfterAllIsLastAnnounced | frontend/src/components/OfflineDetector.js:10-18 | after a run of events, connectivity is what the last online/offline event announced |
| OfflineDetector.ClosingKeepsConnectivity | frontend/src/components/OfflineDetector.js:61 | closing the snackbar never changes connectivity |
| OfflineDetector.AfterAllSnoc | frontend/src/components/OfflineDetector.js:10-18 | the connectivity after one more event follows from the connectivity before it |
| OfflineDetector.Replay | frontend/src/components/OfflineDetector.js:6-68 | over any event run, every render shows the banner iff offline and never opens the snackbar |
| ShareMessage.SensorSection | frontend/src/components/ShareButton.js:23-35 | nothing without sensor data; the Connected block iff connected with a reading; otherwise the not-connected notice |
| ShareMessage.Icon | frontend/src/components/ShareButton.js:41-43 | critical red, high orange, medium yellow, anything else green |
| ShareMessage.Listed | frontend/src/components/ShareButton.js:40 | the first min(count, 3) alerts |
| ShareMessage.WriteListing | frontend/src/components/ShareButton.js:40-47 | the forEach writes each block with a newline between neighbours and none after the last |
| ShareMessage.AlertsSection | frontend/src/components/ShareButton.js:38-53 | the section is the all-clear line exactly when there are no alerts |
| ShareMessage.WriteAlertsSection | frontend/src/components/ShareButton.js:38-53 | the alert part of the builder writes exactly the alert section |
| ShareMessage.GenerateShareMessage | frontend/src/components/ShareButton.js:16-59 | the `+=` builder produces header, sensor section, alert section and footer |
| ShareMessage.ListingLength | frontend/src/components/ShareButton.js:46 | exactly one separator between neighbouring alert blocks |
| ShareMessage.ListingEndsWithLastBlock | frontend/src/components/ShareButton.js:46 | no separator after the last listed alert |
| ShareMessage.HeadingCountsAll | frontend/src/components/ShareButton.js:39 | the heading's number reads back as the total alert count, not the listed count |
| ShareMessage.MoreAlertsLineExactlyWhenOverThree | frontend/src/components/ShareButton.js:48-50 | "... and N more alerts" with N = count - 3 ends the section iff there are more than 3 alerts |
| ShareMessage.MessageFrame | frontend/src/components/ShareButton.js:20-56 | the message always opens with the project header and closes with the dashboard link and hashtags |
| DataEntry.Toggle | frontend/src/pages/DataEntry.js:79-81 | a present symptom leaves entirely; an absent one is appended; other symptoms stay |
| DataEntry.ToggleSymptom | frontend/src/pages/DataEntry.js:77-82 | only the symptom list of the form changes |
| DataEntry.RemovalKeepsOrder | frontend/src/pages/DataEntry.js:80 | removal shortens the list and keeps every copy of each other symptom, in its original order |
| DataEntry.ToggleKeepsNoDuplicates | frontend/src/pages/DataEntry.js:79-81 | a list without duplicates has none after a toggle |
| DataEntry.ToggleTwiceRestores | frontend/src/pages/DataEntry.js:79-81 | toggling an absent symptom twice restores the list |
| DataEntry.TogglePresentTwice | frontend/src/pages/DataEntry.js:79-81 | a present symptom toggled twice comes back once, at the end |
| DataEntry.Page.constructor | frontend/src/pages/DataEntry.js:14-32 | both forms start empty and there is no message |
| DataEntry.Page.HandleSymptomToggle | frontend/src/pages/DataEntry.js:76-83 | the form becomes its toggled version |
| DataEntry.Page.HandleWaterSubmit | frontend/src/pages/DataEntry.js:38-54 | on a resolved submit all six fields are cleared with the success message; otherwise they are kept with the error message |
| DataEntry.Page.HandleHealthSubmit | frontend/src/pages/DataEntry.js:56-74 | on a resolved submit every field is cleared, symptoms to []; otherwise they are kept |
| DataEntry.OfflineWaterSubmitKeepsForm | frontend/src/pages/DataEntry.js:51-53 | offline, the form survives and nothing is sent |
| DataEntry.LostResubmitLooksSuccessful | frontend/src/pages/DataEntry.js:40-50 | a resubmission lost on the network within 5 minutes is shown as successful and the form cleared |
| MockServer.Stamped | backend/simple-server.js:68 | the body with the server time replacing any timestamp, all other fields kept |
| MockServer.MockCategory | backend/simple-server.js:81 | high iff > 0.6, medium iff in (0.3, 0.6], low otherwise |
| MockServer.MockAlert | backend/simple-server.js:86-95 | the pushed alert is an outbreak alert, always high and never critical, at a truthy location, at the server time, carrying the mock's category |
| MockServer.LocationOr | backend/simple-server.js:90 | a truthy body location is kept as is, otherwise "Unknown" |
| MockServer.CurrentReading | backend/simple-server.js:110-115 | exactly the pH, turbidity, contamination and location fields the last reading has |
| MockServer.Server.SensorStatus | backend/simple-server.js:101-117 | lastUpdate is null iff disconnected; currentReading comes from the last posted water reading iff connected with a non-empty array |
| MockServer.Server.constructor | backend/simple-server.js:26-37 | two seed readings, one case and one alert, stamped at load time |
| MockServer.Server.Dashboard | backend/simple-server.js:40-61 | the arrays as they are, with constant stats never recomputed |
| MockServer.Server.GetAlerts | backend/simple-server.js:63-65 | every alert, seeded or pushed, in push order |
| MockServer.Server.PostWaterData | backend/simple-server.js:67-70 | exactly one stamped document appended at the end; the reply echoes the body |
| MockServer.Server.PostHealthData | backend/simple-server.js:72-75 | exactly one stamped document appended at the end; the reply echoes the body |
| MockServer.Server.Predict | backend/simple-server.js:77-98 | an alert is appended iff risk > 0.7, always high; the prediction is returned |
| MockServer.PostThenStatus | backend/simple-server.js:101-117 | after a reading is posted, a connected status shows that reading's fields and the time of the request |
| MockServer.PredictThenList | backend/simple-server.js:86-95 | a pushed alert is listed last by GET /api/alerts, after all earlier ones |
| MockServer.MockAlertIsHighCategory | backend/simple-server.js:81-89 | an alert-raising prediction is categorised high and the alert is high |
| MockServer.MockAgreesWithRoute | backend/simple-server.js:86-95 | for every risk the mock can draw, it raises the same alert as the real route, with the same severity, message and location |
| OutbreakModel.SevereCount | ml-pipeline/app.py:42 | the severe count is at most the case count, zero iff no case is severe |
| OutbreakModel.PrepareFeatures | ml-pipeline/app.py:27-53 | exactly 7 features: the three means or 7.0/5.0/50.0, case and severe counts (severe <= cases), weather values or 25/70 |
| OutbreakModel.MeanPHWithinReadings | ml-pipeline/app.py:32 | the pH feature lies within the bounds of the readings |
| OutbreakModel.AnalyzeRiskFactors | ml-pipeline/app.py:106-118 | the appended factors are the selected messages, in rule order |
| OutbreakModel.Selected | ml-pipeline/app.py:106-118 | the selected messages are a subsequence of the messages |
| OutbreakModel.SelectedInOrder | ml-pipeline/app.py:106-118 | the k-th selected message is message f[k] with its flag set; the indices increase; every flagged index is among them, so each flagged message appears once, in rule order |
| OutbreakModel.SelectedExactly | ml-pipeline/app.py:106-118 | a distinct message is selected exactly when its flag is set |
| OutbreakModel.FactorReportedIffCrossed | ml-pipeline/app.py:106-118 | each factor is reported iff its threshold is crossed |
| OutbreakModel.WeatherNeverAFactor | ml-pipeline/app.py:106-118 | features 5 and 6 never change the factors |
| OutbreakModel.RiskCategory | ml-pipeline/app.py:102 | high iff > 0.7, medium iff in (0.4, 0.7], low otherwise |
| OutbreakModel.RiskScoreTenths | ml-pipeline/app.py:73-85 | the weighted score is at most 1.4 |
| OutbreakModel.Label | ml-pipeline/app.py:87 | labels are 0 or 1 |
| OutbreakModel.TrainingLabels | ml-pipeline/app.py:71-87 | one label per row, 1 iff the weighted score exceeds 0.5 |
| OutbreakModel.PositiveNeedsTwoRules | ml-pipeline/app.py:73-87 | a positive row triggers at least two rules; a score of exactly 0.5 is negative |
| OutbreakModel.UnsafeWaterIsPositive | ml-pipeline/app.py:74-79 | unsafe pH with high contamination is always positive |
| OutbreakModel.PositiveRowHasFactor | ml-pipeline/app.py:72-118 | a positive training row always has a reported factor |
| SimpleMl.SimpleFactors | ml-pipeline/simple-ml.py:12-18 | contamination, severe cases and weather above 0.7; elevated pH and recent cases above 0.4; otherwise "Normal conditions" alone |
| SimpleMl.Predict | ml-pipeline/simple-ml.py:7-26 | the category is the same threshold rule as the main predictor, and the factors follow the risk |
| SimpleMl.FactorsNeverEmpty | ml-pipeline/simple-ml.py:12-18 | the factor list is never empty |
| SimpleMl.CategoryAgreesWithFactors | ml-pipeline/simple-ml.py:13-23 | category and factor list always come from the same branch; a high prediction names contamination and never normal conditions |

## Left out

- HTTP, Express routing, CORS, JSON parsing, axios, its 10 s timeout, and the polling timers are not modelled. A route is a function or method over its inputs, and a network outcome is a `Transport` value.
- The MongoDB connection and driver are not modelled. Reachability is a flag on `Database`, and a failing call is all-or-nothing.
- Mongo gives no guarantee on the order of documents with equal timestamps. The model sorts stably, which is one of the allowed orders.
- `limit(-n)` is read as "at most n". Mongo's single-batch detail for negative limits is not modelled.
- `parseInt` of a non-numeric `limit` (NaN) is not modelled. The limit is already an integer.
- Mongoose casting of strings to numbers, `_id`, `__v`, and the text of validation error messages are not modelled. A validation failure carries the list of failing paths.
- Floating point is not modelled:
  - means are `real`;
  - risks are integer thousandths and readings in the share text are integer tenths;
  - `risk_level` values that are not whole thousandths, and float rounding in `toFixed`, are not represented.
- OutbreakModel.TrainingLabels: the rule weights are added in tenths. Each sum that is exactly 0.5 in decimal is assumed to be exactly 0.5 in binary floating point too.
- The random training data, `StandardScaler`, `RandomForestClassifier` and `predict_proba` are not modelled. The probability they produce is an input.
- The Flask routes and the `pymongo` queries of the predictor are not modelled.
- `toLocaleString()` and `window.location.origin` are parameters of the share message.
- The share, clipboard, e-mail and WhatsApp calls are not modelled.
- ShareMessage.Reading and ShareMessage.AlertView: a missing reading field, alert message or alert location renders as "undefined". A missing alert severity is represented by any unlisted string, which gets the same green icon. Non-numeric readings are not represented.
- ApiService.Client: request bodies are not recorded, only the verb and URL of each request. The fallback payloads carry one load time, where the source takes `new Date()` three times at module load.
- `console.warn` output is not modelled.
- React rendering, layout and state batching are not modelled. Each event handler runs to completion before the next.
- `DataEntry.Page.HandleWaterSubmit` and `HandleHealthSubmit` take the client as an argument. The form contents are not forwarded to it, because the client does not record bodies.
- backend/server.js, backend/scripts/mockDataGenerator.js and the remaining pages and components are not part of this model.
