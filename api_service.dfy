/** frontend/src/services/api.js: the browser's gateway to the backend. A
    response interceptor caches every successful response by request URL
    and, when a request fails, answers from that cache if the entry is
    less than five minutes old. Three reads fall back to fixed payloads;
    three writes refuse to start while the browser is offline. */
module ApiService {
  import opened Common

  /** `CACHE_DURATION`: five minutes, in milliseconds. */
  const CacheDuration := 5 * 60 * 1000

  datatype CacheEntry = CacheEntry(data: Json, timestamp: int)

  type Cache = map<string, CacheEntry>

  /** What the network did with one request: a response, or an error
      (timeout, refused connection, non-2xx status). */
  datatype Transport = Delivered(data: Json) | TransportError(message: string)

  /** How a call settles: resolved with a payload, or rejected with an error message. */
  datatype Outcome = Resolved(data: Json) | Rejected(message: string)

  datatype Verb = Get | Post

  /** A request that left the browser. */
  datatype Request = Request(verb: Verb, url: string)

  const OfflineSubmitMessage := "Cannot submit data while offline"
  const OfflinePredictMessage := "Cannot run predictions while offline"

  /** An entry younger than `CACHE_DURATION`, strictly. */
  predicate Fresh(cache: Cache, url: string, now: int) {
    url in cache && now - cache[url].timestamp < CacheDuration
  }

  /** The cache after a response: the success handler overwrites the entry of its URL. */
  function Remember(cache: Cache, url: string, transport: Transport, now: int): (c: Cache)
    ensures transport.TransportError? ==> c == cache
    ensures transport.Delivered? ==> url in c && c[url] == CacheEntry(transport.data, now)
    ensures forall u :: u != url ==> (u in c <==> u in cache) && (u in cache ==> c[u] == cache[u])
  {
    match transport
    case Delivered(data) => cache[url := CacheEntry(data, now)]
    case TransportError(_) => cache
  }

  /** How a request through the interceptor settles. */
  function Settle(cache: Cache, url: string, transport: Transport, now: int): (o: Outcome)
    ensures transport.Delivered? ==> o == Resolved(transport.data)
    ensures transport.TransportError? ==>
      (o.Resolved? <==> Fresh(cache, url, now))
      && (o.Resolved? ==> o.data == cache[url].data)
      && (o.Rejected? ==> o.message == transport.message)
  {
    match transport
    case Delivered(data) => Resolved(data)
    case TransportError(message) =>
      if Fresh(cache, url, now) then Resolved(cache[url].data) else Rejected(message)
  }

  /** `catch (error) { return { data: fallback } }`. */
  function OrFallback(o: Outcome, fallback: Json): Json {
    match o
    case Resolved(data) => data
    case Rejected(_) => fallback
  }

  // ---------------------------------------------------------------------
  // `fallbackData`; its dates are taken once, when the module loads.
  // ---------------------------------------------------------------------

  const NotConnected := "\U{26A0}\U{FE0F} Device not connected - Check sensor connection"

  function FallbackDashboard(loadTime: int): Json {
    JObj(map[
      "success" := JBool(true),
      "data" := JObj(map[
        "waterData" := JArr([JObj(map[
          "sensorId" := JStr("OFFLINE"), "pH" := JNum(7.0), "turbidity" := JNum(2.0),
          "contaminationLevel" := JNum(15.0), "timestamp" := JTime(loadTime)])]),
        "healthCases" := JArr([JObj(map[
          "patientId" := JStr("OFFLINE"), "disease" := JStr("No data"),
          "severity" := JStr("unknown"), "timestamp" := JTime(loadTime)])]),
        "alerts" := JArr([JObj(map[
          "type" := JStr("system"), "severity" := JStr("info"),
          "message" := JStr(NotConnected), "timestamp" := JTime(loadTime)])]),
        "stats" := JObj(map[
          "activeSensors" := JNum(0.0), "totalCases" := JNum(0.0), "activeAlerts" := JNum(1.0),
          "avgWaterQuality" := JArr([JObj(map["avgPH" := JNum(7.0), "avgTurbidity" := JNum(2.0)])])]),
        "weather" := JObj(map[
          "temperature" := JNum(25.0), "humidity" := JNum(60.0), "rainfall" := JNum(0.0),
          "forecast" := JStr("No data available")])])])
  }

  function FallbackSensor(): Json {
    JObj(map[
      "success" := JBool(true), "connected" := JBool(false),
      "lastUpdate" := JNull, "currentReading" := JNull])
  }

  function FallbackAlerts(loadTime: int): Json {
    JObj(map[
      "success" := JBool(true),
      "data" := JArr([JObj(map[
        "type" := JStr("system"), "severity" := JStr("warning"),
        "message" := JStr(NotConnected), "timestamp" := JTime(loadTime)])])])
  }

  // ---------------------------------------------------------------------
  // What the cache promises.
  // ---------------------------------------------------------------------

  /** A response received at `t0` answers a failure of the same URL at
      `t0 + d` exactly when `d` is under five minutes. */
  lemma CacheAnswersWithinDuration(cache: Cache, url: string, payload: Json, t0: int, d: int, message: string)
    ensures var c := Remember(cache, url, Delivered(payload), t0);
            Settle(c, url, TransportError(message), t0 + d)
              == if d < CacheDuration then Resolved(payload) else Rejected(message)
  {
  }

  /** Four minutes after a success the failure is masked; six minutes
      after, and at exactly five, it is not. */
  lemma CacheScenario(cache: Cache, url: string, payload: Json, t0: int, message: string)
    ensures Settle(Remember(cache, url, Delivered(payload), t0), url, TransportError(message), t0 + 4 * 60 * 1000)
            == Resolved(payload)
    ensures Settle(Remember(cache, url, Delivered(payload), t0), url, TransportError(message), t0 + 5 * 60 * 1000)
            == Rejected(message)
    ensures Settle(Remember(cache, url, Delivered(payload), t0), url, TransportError(message), t0 + 6 * 60 * 1000)
            == Rejected(message)
  {
    CacheAnswersWithinDuration(cache, url, payload, t0, 4 * 60 * 1000, message);
    CacheAnswersWithinDuration(cache, url, payload, t0, 5 * 60 * 1000, message);
    CacheAnswersWithinDuration(cache, url, payload, t0, 6 * 60 * 1000, message);
  }

  /** The last response for a URL wins: an earlier one is never served again. */
  lemma LastResponseWins(cache: Cache, url: string, first: Json, second: Json, t1: int, t2: int,
                         message: string, now: int)
    requires t1 <= t2
    ensures var c := Remember(Remember(cache, url, Delivered(first), t1), url, Delivered(second), t2);
            Settle(c, url, TransportError(message), now)
              == if now - t2 < CacheDuration then Resolved(second) else Rejected(message)
  {
  }

  /** The key is the URL alone, for writes too: a `GET /water-data` list
      cached less than five minutes ago is what a failed
      `POST /water-data` resolves with, so the failed write looks
      successful to its caller. */
  lemma FailedWriteResolvesWithCachedRead(cache: Cache, listed: Json, t0: int, message: string, now: int)
    requires 0 <= now - t0 < CacheDuration
    ensures Settle(Remember(cache, "/water-data", Delivered(listed), t0), "/water-data",
                   TransportError(message), now) == Resolved(listed)
  {
  }

  /** The client: the module-level `cache` and the browser's `navigator.onLine`. */
  class Client {
    var cache: Cache
    var online: bool
    /** Every request that left the browser, oldest first. */
    var sent: seq<Request>
    /** When `fallbackData` was built. */
    const loadTime: int

    constructor (online: bool, loadTime: int)
      ensures cache == map[] && this.online == online && sent == [] && this.loadTime == loadTime
    {
      cache := map[];
      this.online := online;
      sent := [];
      this.loadTime := loadTime;
    }

    /** `api.get(url)` or `api.post(url, …)` through the response interceptor. */
    method Send(verb: Verb, url: string, transport: Transport, now: int) returns (o: Outcome)
      modifies this`cache, this`sent
      ensures sent == old(sent) + [Request(verb, url)]
      ensures cache == Remember(old(cache), url, transport, now)
      ensures o == Settle(old(cache), url, transport, now)
    {
      sent := sent + [Request(verb, url)];
      match transport
      case Delivered(data) =>
        cache := cache[url := CacheEntry(data, now)];
        o := Resolved(data);
      case TransportError(message) =>
        if url in cache && now - cache[url].timestamp < CacheDuration {
          o := Resolved(cache[url].data);
        } else {
          o := Rejected(message);
        }
    }

    /** The browser's `online`/`offline` notifications change `navigator.onLine`. */
    method SetOnline(value: bool)
      modifies this`online
      ensures online == value
    {
      online := value;
    }

    /** A read that never fails: live or cached data, else the fallback. */
    method GetWithFallback(url: string, fallback: Json, transport: Transport, now: int) returns (data: Json)
      modifies this`cache, this`sent
      ensures sent == old(sent) + [Request(Get, url)]
      ensures cache == Remember(old(cache), url, transport, now)
      ensures data == OrFallback(Settle(old(cache), url, transport, now), fallback)
    {
      var o := Send(Get, url, transport, now);
      data := OrFallback(o, fallback);
    }

    method GetDashboardData(transport: Transport, now: int) returns (data: Json)
      modifies this`cache, this`sent
      ensures sent == old(sent) + [Request(Get, "/dashboard")]
      ensures cache == Remember(old(cache), "/dashboard", transport, now)
      ensures data == OrFallback(Settle(old(cache), "/dashboard", transport, now), FallbackDashboard(loadTime))
    {
      data := GetWithFallback("/dashboard", FallbackDashboard(loadTime), transport, now);
    }

    method GetAlerts(transport: Transport, now: int) returns (data: Json)
      modifies this`cache, this`sent
      ensures sent == old(sent) + [Request(Get, "/alerts")]
      ensures cache == Remember(old(cache), "/alerts", transport, now)
      ensures data == OrFallback(Settle(old(cache), "/alerts", transport, now), FallbackAlerts(loadTime))
    {
      data := GetWithFallback("/alerts", FallbackAlerts(loadTime), transport, now);
    }

    method GetSensorStatus(transport: Transport, now: int) returns (data: Json)
      modifies this`cache, this`sent
      ensures sent == old(sent) + [Request(Get, "/sensor/status")]
      ensures cache == Remember(old(cache), "/sensor/status", transport, now)
      ensures data == OrFallback(Settle(old(cache), "/sensor/status", transport, now), FallbackSensor())
    {
      data := GetWithFallback("/sensor/status", FallbackSensor(), transport, now);
    }

    /** A write that refuses to start while offline: nothing is sent and the cache is untouched. */
    method GuardedPost(url: string, offlineMessage: string, transport: Transport, now: int) returns (o: Outcome)
      modifies this`cache, this`sent
      ensures !online ==> o == Rejected(offlineMessage) && sent == old(sent) && cache == old(cache)
      ensures online ==> sent == old(sent) + [Request(Post, url)]
                         && cache == Remember(old(cache), url, transport, now)
                         && o == Settle(old(cache), url, transport, now)
    {
      if !online {
        o := Rejected(offlineMessage);
      } else {
        o := Send(Post, url, transport, now);
      }
    }

    method SubmitWaterData(transport: Transport, now: int) returns (o: Outcome)
      modifies this`cache, this`sent
      ensures !online ==> o == Rejected(OfflineSubmitMessage) && sent == old(sent) && cache == old(cache)
      ensures online ==> sent == old(sent) + [Request(Post, "/water-data")]
                         && cache == Remember(old(cache), "/water-data", transport, now)
                         && o == Settle(old(cache), "/water-data", transport, now)
    {
      o := GuardedPost("/water-data", OfflineSubmitMessage, transport, now);
    }

    method SubmitHealthData(transport: Transport, now: int) returns (o: Outcome)
      modifies this`cache, this`sent
      ensures !online ==> o == Rejected(OfflineSubmitMessage) && sent == old(sent) && cache == old(cache)
      ensures online ==> sent == old(sent) + [Request(Post, "/health-data")]
                         && cache == Remember(old(cache), "/health-data", transport, now)
                         && o == Settle(old(cache), "/health-data", transport, now)
    {
      o := GuardedPost("/health-data", OfflineSubmitMessage, transport, now);
    }

    method TriggerPrediction(transport: Transport, now: int) returns (o: Outcome)
      modifies this`cache, this`sent
      ensures !online ==> o == Rejected(OfflinePredictMessage) && sent == old(sent) && cache == old(cache)
      ensures online ==> sent == old(sent) + [Request(Post, "/predict")]
                         && cache == Remember(old(cache), "/predict", transport, now)
                         && o == Settle(old(cache), "/predict", transport, now)
    {
      o := GuardedPost("/predict", OfflinePredictMessage, transport, now);
    }

    /** No offline guard and no fallback: the request is sent whatever `online` says. */
    method CreateAlert(transport: Transport, now: int) returns (o: Outcome)
      modifies this`cache, this`sent
      ensures sent == old(sent) + [Request(Post, "/alerts")]
      ensures cache == Remember(old(cache), "/alerts", transport, now)
      ensures o == Settle(old(cache), "/alerts", transport, now)
    {
      o := Send(Post, "/alerts", transport, now);
    }

    /** The query parameters are not part of the cache key: every call
        shares the entry of "/water-data". */
    method GetWaterData(params: map<string, string>, transport: Transport, now: int) returns (o: Outcome)
      modifies this`cache, this`sent
      ensures sent == old(sent) + [Request(Get, "/water-data")]
      ensures cache == Remember(old(cache), "/water-data", transport, now)
      ensures o == Settle(old(cache), "/water-data", transport, now)
    {
      o := Send(Get, "/water-data", transport, now);
    }

    method GetHealthData(params: map<string, string>, transport: Transport, now: int) returns (o: Outcome)
      modifies this`cache, this`sent
      ensures sent == old(sent) + [Request(Get, "/health-data")]
      ensures cache == Remember(old(cache), "/health-data", transport, now)
      ensures o == Settle(old(cache), "/health-data", transport, now)
    {
      o := Send(Get, "/health-data", transport, now);
    }
  }

  /** A client-side walk through the cache: a dashboard read succeeds, the
      network then fails; four minutes later the cached dashboard is
      served, six minutes later the fixed fallback is. */
  method DashboardCacheWalkthrough(payload: Json, t0: int, loadTime: int)
      returns (afterFour: Json, afterSix: Json)
    ensures afterFour == payload
    ensures afterSix == FallbackDashboard(loadTime)
  {
    var client := new Client(true, loadTime);
    var first := client.GetDashboardData(Delivered(payload), t0);
    afterFour := client.GetDashboardData(TransportError("Network Error"), t0 + 4 * 60 * 1000);
    afterSix := client.GetDashboardData(TransportError("Network Error"), t0 + 6 * 60 * 1000);
  }

  /** Offline, a water submission never reaches the network. */
  method OfflineSubmitWalkthrough(transport: Transport, now: int, loadTime: int) returns (o: Outcome, sent: seq<Request>)
    ensures o == Rejected(OfflineSubmitMessage) && sent == []
  {
    var client := new Client(false, loadTime);
    o := client.SubmitWaterData(transport, now);
    sent := client.sent;
  }
}
