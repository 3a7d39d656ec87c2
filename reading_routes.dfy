/** backend/routes/waterData.js: `POST /water-data` saves one reading or
    answers 400; `GET /water-data?location&limit` lists readings. */
module WaterRoutes {
  import opened Common
  import opened Sequences
  import opened Schemas
  import opened Store

  function WaterQuery(store: seq<WaterReading>, location: Option<string>, limit: Option<int>): (r: seq<WaterReading>)
    ensures NewestFirst(r, WaterTime)
    ensures forall x :: x in r ==> x in store && AtLocation(location, x.location)
    ensures var n := LimitOr(limit);
            var matching := Filter(store, (x: WaterReading) => AtLocation(location, x.location));
            (n != 0 ==> |r| == Min(|matching|, if n < 0 then -n else n))
            && (n == 0 ==> multiset(r) == multiset(matching))
    // each matching document appears at most as often as it is stored
    ensures multiset(r) <= multiset(Filter(store, (x: WaterReading) => AtLocation(location, x.location)))
    // the readings returned are the newest matching ones
    ensures forall x, i :: x in store && AtLocation(location, x.location) && x !in r && 0 <= i < |r|
                           ==> x.timestamp <= r[i].timestamp
  {
    var matching := Filter(store, (x: WaterReading) => AtLocation(location, x.location));
    var r := Newest(matching, WaterTime, LimitOr(limit));
    forall x | x in r ensures x in matching {
      NewestFromCandidates(matching, WaterTime, LimitOr(limit), x);
    }
    forall x, i | x in store && AtLocation(location, x.location) && x !in r && 0 <= i < |r|
      ensures x.timestamp <= r[i].timestamp
    {
      NewestOmitsOnlyOlder(matching, WaterTime, LimitOr(limit), x, i);
    }
    r
  }

  function GetWaterData(reachable: bool, store: seq<WaterReading>, location: Option<string>,
                        limit: Option<int>): (reply: Reply<seq<WaterReading>>)
    ensures reachable ==> reply == Reply(200, Data(WaterQuery(store, location, limit)))
    ensures !reachable ==> reply.status == 500 && reply.body == Error(StorageUnavailable)
  {
    if reachable then Reply(200, Data(WaterQuery(store, location, limit)))
    else Reply(500, Error(StorageUnavailable))
  }

  /** Without a limit, a query that matches at least the default number of
      readings returns exactly that many. */
  lemma QueryFillsDefaultLimit(store: seq<WaterReading>, location: Option<string>)
    requires |Filter(store, (x: WaterReading) => AtLocation(location, x.location))| >= DefaultLimit
    ensures |WaterQuery(store, location, None)| == DefaultLimit
  {
  }

  /** Without a location and with `limit=0`, every stored reading is
      returned: all locations are eligible and nothing is capped. */
  lemma UnfilteredUnlimitedReturnsAll(store: seq<WaterReading>)
    ensures multiset(WaterQuery(store, None, Some(0))) == multiset(store)
  {
    FilterAll(store, (x: WaterReading) => AtLocation(None, x.location));
  }

  /** A reading strictly newer than every other reading at its location is
      what `GET /water-data?location=…&limit=1` returns. */
  lemma NewestReadingAnswersLimitOne(store: seq<WaterReading>, w: WaterReading)
    requires w in store && |w.location| > 0
    requires forall x :: x in store && x.location == w.location && x != w ==> x.timestamp < w.timestamp
    ensures WaterQuery(store, Some(w.location), Some(1)) == [w]
  {
    var matching := Filter(store, (x: WaterReading) => AtLocation(Some(w.location), x.location));
    StrictlyNewestComesFirst(matching, WaterTime, w);
  }

  method PostWaterData(db: Database, body: WaterDraft, now: int) returns (reply: Reply<WaterReading>)
    modifies db`waterData
    ensures match ValidateWater(body, now)
      case Ok(w) =>
        if old(db.reachable) then db.waterData == old(db.waterData) + [w] && reply == Reply(201, Data(w))
        else db.waterData == old(db.waterData) && reply == Reply(400, Error(StorageUnavailable))
      case Err(paths) =>
        db.waterData == old(db.waterData) && reply == Reply(400, Error(Invalid(paths)))
  {
    match ValidateWater(body, now)
    case Ok(w) =>
      if db.reachable {
        db.waterData := db.waterData + [w];
        reply := Reply(201, Data(w));
      } else {
        reply := Reply(400, Error(StorageUnavailable));
      }
    case Err(paths) =>
      reply := Reply(400, Error(Invalid(paths)));
  }

  /** POST then GET: a valid reading posted later than every stored reading
      at its location is the one `GET ?location=…&limit=1` returns. */
  method PostThenGetNewest(db: Database, body: WaterDraft, now: int)
      returns (posted: Reply<WaterReading>, listed: Reply<seq<WaterReading>>)
    requires db.reachable && ValidateWater(body, now).Ok?
    requires body.timestamp.None?
    requires forall x :: x in db.waterData ==> x.timestamp < now
    modifies db`waterData
    ensures posted.status == 201 && posted.body.Data?
    ensures listed == Reply(200, Data([posted.body.data]))
  {
    posted := PostWaterData(db, body, now);
    var w := posted.body.data;
    NewestReadingAnswersLimitOne(db.waterData, w);
    listed := GetWaterData(db.reachable, db.waterData, Some(w.location), Some(1));
  }
}

/** backend/routes/healthData.js: `POST /health-data` saves one case or
    answers 400; `GET /health-data?location&limit` lists cases. */
module HealthRoutes {
  import opened Common
  import opened Sequences
  import opened Schemas
  import opened Store

  function HealthQuery(store: seq<HealthCase>, location: Option<string>, limit: Option<int>): (r: seq<HealthCase>)
    ensures NewestFirst(r, CaseTime)
    ensures forall x :: x in r ==> x in store && AtLocation(location, x.location)
    ensures var n := LimitOr(limit);
            var matching := Filter(store, (x: HealthCase) => AtLocation(location, x.location));
            (n != 0 ==> |r| == Min(|matching|, if n < 0 then -n else n))
            && (n == 0 ==> multiset(r) == multiset(matching))
    // each matching document appears at most as often as it is stored
    ensures multiset(r) <= multiset(Filter(store, (x: HealthCase) => AtLocation(location, x.location)))
    // the cases returned are the newest matching ones
    ensures forall x, i :: x in store && AtLocation(location, x.location) && x !in r && 0 <= i < |r|
                           ==> x.timestamp <= r[i].timestamp
  {
    var matching := Filter(store, (x: HealthCase) => AtLocation(location, x.location));
    var r := Newest(matching, CaseTime, LimitOr(limit));
    forall x | x in r ensures x in matching {
      NewestFromCandidates(matching, CaseTime, LimitOr(limit), x);
    }
    forall x, i | x in store && AtLocation(location, x.location) && x !in r && 0 <= i < |r|
      ensures x.timestamp <= r[i].timestamp
    {
      NewestOmitsOnlyOlder(matching, CaseTime, LimitOr(limit), x, i);
    }
    r
  }

  function GetHealthData(reachable: bool, store: seq<HealthCase>, location: Option<string>,
                         limit: Option<int>): (reply: Reply<seq<HealthCase>>)
    ensures reachable ==> reply == Reply(200, Data(HealthQuery(store, location, limit)))
    ensures !reachable ==> reply.status == 500 && reply.body == Error(StorageUnavailable)
  {
    if reachable then Reply(200, Data(HealthQuery(store, location, limit)))
    else Reply(500, Error(StorageUnavailable))
  }

  /** `limit=0` is no limit at all: every matching case is returned. */
  lemma ZeroLimitReturnsAll(store: seq<HealthCase>, location: Option<string>)
    ensures multiset(HealthQuery(store, location, Some(0)))
         == multiset(Filter(store, (x: HealthCase) => AtLocation(location, x.location)))
  {
  }

  method PostHealthData(db: Database, body: HealthDraft, now: int) returns (reply: Reply<HealthCase>)
    modifies db`healthData
    ensures match ValidateHealth(body, now)
      case Ok(h) =>
        if old(db.reachable) then db.healthData == old(db.healthData) + [h] && reply == Reply(201, Data(h))
        else db.healthData == old(db.healthData) && reply == Reply(400, Error(StorageUnavailable))
      case Err(paths) =>
        db.healthData == old(db.healthData) && reply == Reply(400, Error(Invalid(paths)))
  {
    match ValidateHealth(body, now)
    case Ok(h) =>
      if db.reachable {
        db.healthData := db.healthData + [h];
        reply := Reply(201, Data(h));
      } else {
        reply := Reply(400, Error(StorageUnavailable));
      }
    case Err(paths) =>
      reply := Reply(400, Error(Invalid(paths)));
  }
}
