/**
  What the fleet aggregates share: the vehicle rows, the latest reading of a
  vehicle, the readings before a cutoff and the vins of a fleet; and the
  first aggregate, the active/inactive vehicle counts.

  Each aggregate is a function over the tables; a handler that computes one
  with an accumulator loop is a method proved equal to that function.
*/
module FleetStats {
  import opened Common
  import opened Telemetry

  /** The columns of a vehicle row that the aggregates read. */
  datatype Vehicle = Vehicle(vin: int, fleetId: int)


  // ---------------------------------------------------------------------------
  // Active and inactive vehicles

  /** The distinct vins that have at least one reading. */
  function DistinctVins(rs: seq<Reading>): (vins: set<int>)
    ensures forall v :: v in vins <==> exists i :: 0 <= i < |rs| && rs[i].vin == v
  {
    set i | 0 <= i < |rs| :: rs[i].vin
  }

  /** The distinct vins that have at least one reading with the engine on. */
  function ActiveVins(rs: seq<Reading>): (vins: set<int>)
    ensures forall v :: v in vins <==> exists i :: 0 <= i < |rs| && rs[i].vin == v && rs[i].engineStatus == On
  {
    set i | 0 <= i < |rs| && rs[i].engineStatus == On :: rs[i].vin
  }

  datatype ActivityCounts = ActivityCounts(active: int, inactive: int)

  lemma SubsetDifferenceSize(a: set<int>, b: set<int>)
    requires b <= a
    ensures |a - b| == |a| - |b|
  {
    assert a == (a - b) + b;
    assert (a - b) * b == {};
  }

  /**
    The counts of the active/inactive endpoint: a vin is active when any of
    its readings has the engine on, and inactive when it has readings but
    none of them with the engine on.
  */
  function ActiveInactive(rs: seq<Reading>): (c: ActivityCounts)
    ensures 0 <= c.active && 0 <= c.inactive
    ensures c.active + c.inactive == |DistinctVins(rs)|
    ensures c.active == |ActiveVins(rs)|
    ensures c.inactive == |DistinctVins(rs) - ActiveVins(rs)|
  {
    var total := |DistinctVins(rs)|;
    var active := |ActiveVins(rs)|;
    assert ActiveVins(rs) <= DistinctVins(rs);
    SubsetDifferenceSize(DistinctVins(rs), ActiveVins(rs));
    ActivityCounts(active, total - active)
  }

  /**
    Ingesting a reading never makes a vin inactive or unknown, and a reading
    with the engine on makes its vin active.
  */
  lemma IngestKeepsActivity(db: Tables, t: TelemetryIn, now: int)
    ensures var after := Ingest(db, t, now).readings;
      && DistinctVins(after) == DistinctVins(db.readings) + {t.vin}
      && ActiveVins(db.readings) <= ActiveVins(after)
      && (t.engineStatus == On ==> ActiveVins(after) == ActiveVins(db.readings) + {t.vin})
      && (t.engineStatus != On ==> ActiveVins(after) == ActiveVins(db.readings))
  {
    IngestEffect(db, t, now);
    var after := Ingest(db, t, now).readings;
    var n := |db.readings|;
    assert forall i :: 0 <= i < n ==> after[i] == db.readings[i];
    assert after[n].vin == t.vin && after[n].engineStatus == t.engineStatus;
  }

  // ---------------------------------------------------------------------------
  // Latest readings

  /**
    The latest reading of `vin`: the one with the largest timestamp, and of
    readings with equal timestamps the one stored last.
  */
  function Latest(rs: seq<Reading>, vin: int): (r: Option<Reading>)
    ensures r.None? <==> forall i :: 0 <= i < |rs| ==> rs[i].vin != vin
    ensures r.Some? ==> r.value in rs && r.value.vin == vin
    ensures r.Some? ==> forall i :: 0 <= i < |rs| && rs[i].vin == vin ==> rs[i].timestamp <= r.value.timestamp
    decreases |rs|
  {
    if rs == [] then None
    else
      var n := |rs| - 1;
      var prev := Latest(rs[..n], vin);
      assert forall i :: 0 <= i < n ==> rs[..n][i] == rs[i];
      if rs[n].vin == vin && (prev.None? || prev.value.timestamp <= rs[n].timestamp) then Some(rs[n])
      else prev
  }

  /** The readings taken at or before `cutoff`, in storage order. */
  function AtOrBefore(rs: seq<Reading>, cutoff: int): (kept: seq<Reading>)
    ensures forall r :: r in kept <==> r in rs && r.timestamp <= cutoff
    decreases |rs|
  {
    if rs == [] then []
    else
      var n := |rs| - 1;
      assert rs == rs[..n] + [rs[n]];
      AtOrBefore(rs[..n], cutoff) + (if rs[n].timestamp <= cutoff then [rs[n]] else [])
  }

  /** The vins of the vehicles of a fleet, in table order. */
  function FleetVins(vehicles: seq<Vehicle>, fleetId: int): (vins: seq<int>)
    ensures forall v :: v in vins <==>
      exists i :: 0 <= i < |vehicles| && vehicles[i].fleetId == fleetId && vehicles[i].vin == v
    ensures |vins| <= |vehicles|
    decreases |vehicles|
  {
    if vehicles == [] then []
    else
      var n := |vehicles| - 1;
      assert forall i :: 0 <= i < n ==> vehicles[..n][i] == vehicles[i];
      FleetVins(vehicles[..n], fleetId) + (if vehicles[n].fleetId == fleetId then [vehicles[n].vin] else [])
  }
}
