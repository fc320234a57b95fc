/**
  Telemetry ingestion with threshold alerting.

  A submitted reading first runs the two alert rules (over-speed, low fuel),
  each of which may commit one alert row, and is then committed as one
  telemetry row. The pure functions below give the effect of each step on
  the two tables; the `Store` class performs the same steps in place and is
  proved to agree with them.
*/
module Telemetry {
  import opened Common

  datatype EngineStatus = On | Off | Idle

  /** A reading as a client submits it. */
  datatype TelemetryIn = TelemetryIn(
    vin: int,
    latitude: real,
    longitude: real,
    speed: real,
    engineStatus: EngineStatus,
    fuel: real,
    odometerReading: real,
    diagnosticCode: int)

  /** The body of a batch submission: a wrapper holding the list of readings. */
  datatype TelemetryInList = TelemetryInList(tel: seq<TelemetryIn>)

  /** A row of the telemetry table; `timestamp` is filled in by the database clock. */
  datatype Reading = Reading(
    telemetryId: int,
    vin: int,
    latitude: real,
    longitude: real,
    speed: real,
    engineStatus: EngineStatus,
    fuel: real,
    odometerReading: real,
    diagnosticCode: int,
    timestamp: int)

  /** A row of the alert table; `timestamp` is filled in by the database clock. */
  datatype Alert = Alert(alertId: int, vin: int, alertTypeId: int, timestamp: int)

  /** What an alert says, without its id and time: which vehicle, which rule. */
  datatype AlertKind = AlertKind(vin: int, alertTypeId: int)

  /** The two tables the ingestion path writes, with their next autoincrement ids. */
  datatype Tables = Tables(
    readings: seq<Reading>,
    alerts: seq<Alert>,
    nextTelemetryId: int,
    nextAlertId: int)

  datatype NotFound = NotFound(telemetryId: int)

  const SpeedLimit: real := 120.0
  const LowFuelLevel: real := 0.15
  const SpeedAlertType: int := 1
  const LowFuelAlertType: int := 2

  /** Ids in each table increase in storage order and lie below the next id to hand out. */
  ghost predicate WellFormed(db: Tables) {
    && (forall i :: 0 <= i < |db.readings| ==> db.readings[i].telemetryId < db.nextTelemetryId)
    && (forall i, j :: 0 <= i < j < |db.readings| ==> db.readings[i].telemetryId < db.readings[j].telemetryId)
    && (forall i :: 0 <= i < |db.alerts| ==> db.alerts[i].alertId < db.nextAlertId)
    && (forall i, j :: 0 <= i < j < |db.alerts| ==> db.alerts[i].alertId < db.alerts[j].alertId)
  }

  /** Row `r` carries exactly the submitted fields of `t`. */
  predicate Copies(r: Reading, t: TelemetryIn) {
    && r.vin == t.vin
    && r.latitude == t.latitude
    && r.longitude == t.longitude
    && r.speed == t.speed
    && r.engineStatus == t.engineStatus
    && r.fuel == t.fuel
    && r.odometerReading == t.odometerReading
    && r.diagnosticCode == t.diagnosticCode
  }

  /** The telemetry row built from a submission. */
  function RowFor(id: int, t: TelemetryIn, now: int): (r: Reading)
    ensures Copies(r, t) && r.telemetryId == id && r.timestamp == now
  {
    Reading(id, t.vin, t.latitude, t.longitude, t.speed, t.engineStatus,
            t.fuel, t.odometerReading, t.diagnosticCode, now)
  }

  function KindOf(a: Alert): AlertKind {
    AlertKind(a.vin, a.alertTypeId)
  }

  /** The kinds of a sequence of alerts, in the same order. */
  function Kinds(alerts: seq<Alert>): (ks: seq<AlertKind>)
    ensures |ks| == |alerts|
    ensures forall i :: 0 <= i < |alerts| ==> ks[i] == KindOf(alerts[i])
  {
    seq(|alerts|, i requires 0 <= i < |alerts| => KindOf(alerts[i]))
  }

  lemma KindsAppend(a: seq<Alert>, b: seq<Alert>)
    ensures Kinds(a + b) == Kinds(a) + Kinds(b)
  {
    assert forall i :: 0 <= i < |a + b| ==> Kinds(a + b)[i] == (Kinds(a) + Kinds(b))[i];
  }

  /**
    The alerts the two rules raise for one reading, in the order they are
    committed: the rules are independent, a reading raises zero, one or two
    alerts, all for its own vin, and the speed alert comes first.
  */
  function Raised(t: TelemetryIn): (ks: seq<AlertKind>)
    ensures AlertKind(t.vin, SpeedAlertType) in ks <==> t.speed > SpeedLimit
    ensures AlertKind(t.vin, LowFuelAlertType) in ks <==> t.fuel < LowFuelLevel
    ensures forall k :: k in ks ==> k.vin == t.vin
    ensures forall k :: k in ks ==> k.alertTypeId == SpeedAlertType || k.alertTypeId == LowFuelAlertType
    ensures |ks| == (if t.speed > SpeedLimit then 1 else 0) + (if t.fuel < LowFuelLevel then 1 else 0)
    ensures |ks| == 2 ==> ks == [AlertKind(t.vin, SpeedAlertType), AlertKind(t.vin, LowFuelAlertType)]
  {
    (if t.speed > SpeedLimit then [AlertKind(t.vin, SpeedAlertType)] else [])
    + (if t.fuel < LowFuelLevel then [AlertKind(t.vin, LowFuelAlertType)] else [])
  }

  /** Committing one alert row: the next alert id, the database clock. */
  function RaiseAlert(db: Tables, vin: int, alertTypeId: int, now: int): (r: Tables)
    ensures r.readings == db.readings && r.nextTelemetryId == db.nextTelemetryId
    ensures |r.alerts| == |db.alerts| + 1 && db.alerts <= r.alerts
    ensures KindOf(r.alerts[|db.alerts|]) == AlertKind(vin, alertTypeId)
  {
    Tables(db.readings, db.alerts + [Alert(db.nextAlertId, vin, alertTypeId, now)],
           db.nextTelemetryId, db.nextAlertId + 1)
  }

  /** The over-speed rule: an alert of type 1 when the speed is strictly above 120. */
  function SpeedRule(db: Tables, t: TelemetryIn, now: int): (r: Tables)
    ensures r.readings == db.readings && r.nextTelemetryId == db.nextTelemetryId
    ensures db.alerts <= r.alerts
    ensures Kinds(r.alerts) == Kinds(db.alerts)
      + (if t.speed > SpeedLimit then [AlertKind(t.vin, SpeedAlertType)] else [])
  {
    var r := if t.speed > SpeedLimit then RaiseAlert(db, t.vin, SpeedAlertType, now) else db;
    assert r.alerts == r.alerts[..|db.alerts|] + r.alerts[|db.alerts|..];
    KindsAppend(db.alerts, r.alerts[|db.alerts|..]);
    r
  }

  /** The low-fuel rule: an alert of type 2 when the fuel is strictly below 0.15. */
  function FuelRule(db: Tables, t: TelemetryIn, now: int): (r: Tables)
    ensures r.readings == db.readings && r.nextTelemetryId == db.nextTelemetryId
    ensures db.alerts <= r.alerts
    ensures Kinds(r.alerts) == Kinds(db.alerts)
      + (if t.fuel < LowFuelLevel then [AlertKind(t.vin, LowFuelAlertType)] else [])
  {
    var r := if t.fuel < LowFuelLevel then RaiseAlert(db, t.vin, LowFuelAlertType, now) else db;
    assert r.alerts == r.alerts[..|db.alerts|] + r.alerts[|db.alerts|..];
    KindsAppend(db.alerts, r.alerts[|db.alerts|..]);
    r
  }

  /** Committing the telemetry row of a submission. */
  function StoreReading(db: Tables, t: TelemetryIn, now: int): (r: Tables)
    ensures r.alerts == db.alerts && r.nextAlertId == db.nextAlertId
    ensures |r.readings| == |db.readings| + 1 && db.readings <= r.readings
    ensures Copies(r.readings[|db.readings|], t)
    ensures r.readings[|db.readings|].telemetryId == db.nextTelemetryId
    ensures r.readings[|db.readings|].timestamp == now
  {
    Tables(db.readings + [RowFor(db.nextTelemetryId, t, now)], db.alerts,
           db.nextTelemetryId + 1, db.nextAlertId)
  }

  /** Committing an alert keeps the ids of both tables increasing and below their counters. */
  lemma RaiseAlertWellFormed(db: Tables, vin: int, alertTypeId: int, now: int)
    requires WellFormed(db)
    ensures WellFormed(RaiseAlert(db, vin, alertTypeId, now))
  {
  }

  /** Committing a reading keeps the ids of both tables increasing and below their counters. */
  lemma StoreReadingWellFormed(db: Tables, t: TelemetryIn, now: int)
    requires WellFormed(db)
    ensures WellFormed(StoreReading(db, t, now))
  {
  }

  /** One submission: both rules, then the reading. */
  function Ingest(db: Tables, t: TelemetryIn, now: int): Tables {
    StoreReading(FuelRule(SpeedRule(db, t, now), t, now), t, now)
  }

  /**
    One submission appends exactly one reading, a copy of the input stamped
    with the database clock, and exactly the alerts `Raised(t)`; every row
    already stored is left as it was.
  */
  lemma IngestEffect(db: Tables, t: TelemetryIn, now: int)
    ensures var r := Ingest(db, t, now);
      && r.readings == db.readings + [r.readings[|db.readings|]]
      && Copies(r.readings[|db.readings|], t)
      && r.readings[|db.readings|].timestamp == now
      && r.readings[|db.readings|].telemetryId == db.nextTelemetryId
      && db.alerts <= r.alerts
      && Kinds(r.alerts) == Kinds(db.alerts) + Raised(t)
  {
    var mid := FuelRule(SpeedRule(db, t, now), t, now);
    var r := StoreReading(mid, t, now);
    assert r.readings == r.readings[..|db.readings|] + [r.readings[|db.readings|]];
  }

  /** One submission keeps the ids of both tables increasing and below their counters. */
  lemma IngestWellFormed(db: Tables, t: TelemetryIn, now: int)
    requires WellFormed(db)
    ensures WellFormed(Ingest(db, t, now))
  {
    var afterSpeed := SpeedRule(db, t, now);
    if t.speed > SpeedLimit {
      RaiseAlertWellFormed(db, t.vin, SpeedAlertType, now);
    }
    var afterFuel := FuelRule(afterSpeed, t, now);
    if t.fuel < LowFuelLevel {
      RaiseAlertWellFormed(afterSpeed, t.vin, LowFuelAlertType, now);
    }
    StoreReadingWellFormed(afterFuel, t, now);
  }

  /**
    The alerts of a submission are committed before its reading: once both
    rules have run, the alert table already holds every alert of the
    submission and the telemetry table does not yet hold its reading.
  */
  lemma AlertsCommittedBeforeReading(db: Tables, t: TelemetryIn, now: int)
    ensures var afterRules := FuelRule(SpeedRule(db, t, now), t, now);
      && afterRules.readings == db.readings
      && afterRules.alerts == Ingest(db, t, now).alerts
      && Kinds(afterRules.alerts) == Kinds(db.alerts) + Raised(t)
  {
  }

  /**
    There is no de-duplication: the same submission twice stores two
    readings with the same contents and different ids.
  */
  lemma IngestTwiceStoresTwo(db: Tables, t: TelemetryIn, now1: int, now2: int)
    requires WellFormed(db)
    ensures var r := Ingest(Ingest(db, t, now1), t, now2);
      && |r.readings| == |db.readings| + 2
      && Copies(r.readings[|db.readings|], t)
      && Copies(r.readings[|db.readings| + 1], t)
      && r.readings[|db.readings|].telemetryId != r.readings[|db.readings| + 1].telemetryId
  {
    var once := Ingest(db, t, now1);
    IngestEffect(db, t, now1);
    IngestWellFormed(db, t, now1);
    IngestEffect(once, t, now2);
    assert once.readings[|db.readings|].telemetryId < once.nextTelemetryId;
  }

  /** A batch: each element submitted in order, with the clock reading of its own commits. */
  function IngestAll(db: Tables, ts: seq<TelemetryIn>, clock: seq<int>): Tables
    requires |clock| == |ts|
    decreases |ts|
  {
    if ts == [] then db
    else
      var n := |ts| - 1;
      Ingest(IngestAll(db, ts[..n], clock[..n]), ts[n], clock[n])
  }

  /** The alerts a batch raises: each element's alerts, in element order. */
  function RaisedAll(ts: seq<TelemetryIn>): seq<AlertKind>
    decreases |ts|
  {
    if ts == [] then [] else RaisedAll(ts[..|ts| - 1]) + Raised(ts[|ts| - 1])
  }

  lemma IngestAllUnfold(db: Tables, ts: seq<TelemetryIn>, clock: seq<int>)
    requires |clock| == |ts| && ts != []
    ensures var n := |ts| - 1;
      IngestAll(db, ts, clock) == Ingest(IngestAll(db, ts[..n], clock[..n]), ts[n], clock[n])
  {
  }

  /**
    A batch of n readings appends n readings, the k-th a copy of the k-th
    element stamped with its clock reading; the readings stored before are
    left as they were.
  */
  lemma {:induction false} IngestAllReadings(db: Tables, ts: seq<TelemetryIn>, clock: seq<int>)
    requires |clock| == |ts|
    ensures var r := IngestAll(db, ts, clock);
      && |r.readings| == |db.readings| + |ts|
      && db.readings <= r.readings
      && (forall k :: 0 <= k < |ts| ==>
            Copies(r.readings[|db.readings| + k], ts[k]) && r.readings[|db.readings| + k].timestamp == clock[k])
    decreases |ts|
  {
    if ts != [] {
      var n := |ts| - 1;
      var prev := IngestAll(db, ts[..n], clock[..n]);
      IngestAllReadings(db, ts[..n], clock[..n]);
      IngestAllUnfold(db, ts, clock);
      IngestEffect(prev, ts[n], clock[n]);
      var r := IngestAll(db, ts, clock);
      assert prev.readings <= r.readings;
      forall k | 0 <= k < n
        ensures Copies(r.readings[|db.readings| + k], ts[k]) && r.readings[|db.readings| + k].timestamp == clock[k]
      {
        assert r.readings[|db.readings| + k] == prev.readings[|db.readings| + k];
        assert ts[..n][k] == ts[k] && clock[..n][k] == clock[k];
      }
    }
  }

  /**
    A batch appends the alerts of each element in element order, each
    determined by its element alone; the alerts stored before are left as
    they were.
  */
  lemma {:induction false} IngestAllAlerts(db: Tables, ts: seq<TelemetryIn>, clock: seq<int>)
    requires |clock| == |ts|
    ensures var r := IngestAll(db, ts, clock);
      && db.alerts <= r.alerts
      && Kinds(r.alerts) == Kinds(db.alerts) + RaisedAll(ts)
    decreases |ts|
  {
    if ts != [] {
      var n := |ts| - 1;
      var prev := IngestAll(db, ts[..n], clock[..n]);
      IngestAllAlerts(db, ts[..n], clock[..n]);
      IngestAllUnfold(db, ts, clock);
      IngestEffect(prev, ts[n], clock[n]);
      assert RaisedAll(ts) == RaisedAll(ts[..n]) + Raised(ts[n]);
    }
  }

  /** A batch keeps the ids of both tables increasing and below their counters. */
  lemma {:induction false} IngestAllWellFormed(db: Tables, ts: seq<TelemetryIn>, clock: seq<int>)
    requires |clock| == |ts|
    requires WellFormed(db)
    ensures WellFormed(IngestAll(db, ts, clock))
    decreases |ts|
  {
    if ts != [] {
      var n := |ts| - 1;
      var prev := IngestAll(db, ts[..n], clock[..n]);
      IngestAllWellFormed(db, ts[..n], clock[..n]);
      IngestAllUnfold(db, ts, clock);
      IngestWellFormed(prev, ts[n], clock[n]);
    }
  }

  /** A pair as iterating a request model yields it: a field name and the field's value. */
  datatype FieldPair = FieldPair(name: string, value: seq<TelemetryIn>)

  /** The error a handler raises when it reads an attribute its argument lacks. */
  datatype HandlerError = AttributeError(attribute: string)

  /** Iterating a `TelemetryInList` walks its fields, not the readings it holds. */
  function ModelFields(req: TelemetryInList): (pairs: seq<FieldPair>)
    ensures |pairs| == 1 && pairs[0].value == req.tel
  {
    [FieldPair("tel", req.tel)]
  }

  /**
    The batch handler as written: it hands each field pair to the single
    reading handler, whose first rule reads the speed of a pair and fails
    before anything is committed, so the handler raises and stores nothing.
  */
  function CreateBatchAsWritten(db: Tables, req: TelemetryInList): (r: Result<Tables, HandlerError>)
    ensures r == Err(AttributeError("speed"))
  {
    var pairs := ModelFields(req);
    if pairs == [] then Ok(db) else Err(AttributeError("speed"))
  }

  /**
    The discrepancy: a batch holding one reading is rejected by the handler as
    written, with no row stored, while processing its readings stores it.
  */
  lemma BatchAsWrittenStoresNothing(db: Tables, t: TelemetryIn, now: int)
    ensures CreateBatchAsWritten(db, TelemetryInList([t])) == Err(AttributeError("speed"))
    ensures |IngestAll(db, [t], [now]).readings| == |db.readings| + 1
  {
    IngestAllReadings(db, [t], [now]);
  }

  /**
    The store the ingestion endpoints write to: the telemetry and alert
    tables and their autoincrement counters, updated in place.
  */
  class Store {
    var readings: seq<Reading>
    var alerts: seq<Alert>
    var nextTelemetryId: int
    var nextAlertId: int

    function State(): Tables
      reads this
    {
      Tables(readings, alerts, nextTelemetryId, nextAlertId)
    }

    ghost predicate Valid()
      reads this
    {
      WellFormed(State())
    }

    constructor ()
      ensures Valid()
      ensures readings == [] && alerts == []
    {
      readings := [];
      alerts := [];
      nextTelemetryId := 1;
      nextAlertId := 1;
    }

    /** Adds and commits one alert row. */
    method AddAlert(vin: int, alertTypeId: int, now: int)
      requires Valid()
      modifies this
      ensures Valid()
      ensures State() == RaiseAlert(old(State()), vin, alertTypeId, now)
    {
      RaiseAlertWellFormed(State(), vin, alertTypeId, now);
      alerts := alerts + [Alert(nextAlertId, vin, alertTypeId, now)];
      nextAlertId := nextAlertId + 1;
    }

    method CheckSpeedLimit(t: TelemetryIn, now: int)
      requires Valid()
      modifies this
      ensures Valid()
      ensures State() == SpeedRule(old(State()), t, now)
    {
      if t.speed > SpeedLimit {
        AddAlert(t.vin, SpeedAlertType, now);
      }
    }

    method CheckFuel(t: TelemetryIn, now: int)
      requires Valid()
      modifies this
      ensures Valid()
      ensures State() == FuelRule(old(State()), t, now)
    {
      if t.fuel < LowFuelLevel {
        AddAlert(t.vin, LowFuelAlertType, now);
      }
    }

    /** Runs both rules, then adds and commits the telemetry row. */
    method HandleTelemetry(t: TelemetryIn, now: int)
      requires Valid()
      modifies this
      ensures Valid()
      ensures State() == Ingest(old(State()), t, now)
    {
      ghost var before := State();
      CheckSpeedLimit(t, now);
      CheckFuel(t, now);
      ghost var afterRules := State();
      assert afterRules == FuelRule(SpeedRule(before, t, now), t, now);
      StoreReadingWellFormed(afterRules, t, now);
      readings := readings + [RowFor(nextTelemetryId, t, now)];
      nextTelemetryId := nextTelemetryId + 1;
      assert State() == StoreReading(afterRules, t, now);
    }

    /** The single-reading endpoint. */
    method CreateTelemetry(t: TelemetryIn, now: int) returns (success: bool)
      requires Valid()
      modifies this
      ensures Valid()
      ensures success
      ensures State() == Ingest(old(State()), t, now)
    {
      HandleTelemetry(t, now);
      success := true;
    }

    /**
      The batch endpoint, as intended: each reading of `req.tel` in order,
      `clock[k]` being the database clock when element k is committed.
    */
    method CreateTelemetryBatch(req: TelemetryInList, clock: seq<int>) returns (success: bool)
      requires Valid()
      requires |clock| == |req.tel|
      modifies this
      ensures Valid()
      ensures success
      ensures State() == IngestAll(old(State()), req.tel, clock)
    {
      var i := 0;
      while i < |req.tel|
        invariant 0 <= i <= |req.tel|
        invariant Valid()
        invariant State() == IngestAll(old(State()), req.tel[..i], clock[..i])
      {
        assert req.tel[..i + 1][..i] == req.tel[..i];
        assert clock[..i + 1][..i] == clock[..i];
        IngestAllUnfold(old(State()), req.tel[..i + 1], clock[..i + 1]);
        HandleTelemetry(req.tel[i], clock[i]);
        i := i + 1;
      }
      assert req.tel[..i] == req.tel && clock[..i] == clock;
      success := true;
    }

    /** Lookup by telemetry id: the stored row with that id, or NotFound. */
    method GetTelemetry(telemetryId: int) returns (r: Result<Reading, NotFound>)
      ensures r.Ok? ==> r.value in readings && r.value.telemetryId == telemetryId
      ensures r.Err? ==> r.error == NotFound(telemetryId)
      ensures r.Err? <==> forall i :: 0 <= i < |readings| ==> readings[i].telemetryId != telemetryId
    {
      var i := 0;
      while i < |readings|
        invariant 0 <= i <= |readings|
        invariant forall j :: 0 <= j < i ==> readings[j].telemetryId != telemetryId
      {
        if readings[i].telemetryId == telemetryId {
          return Ok(readings[i]);
        }
        i := i + 1;
      }
      r := Err(NotFound(telemetryId));
    }
  }
}
