/**
  The distance a fleet covered in the 24 hours before its latest reading, and
  the loop that adds up the vehicles' contributions.
*/
module FleetDistance {
  import opened Common
  import opened Telemetry
  import opened FleetStats

  const DayInSeconds: int := 86400

  /** Per vin, odometer readings never decrease as timestamps increase. */
  ghost predicate OdometerMonotone(rs: seq<Reading>) {
    forall i, j :: 0 <= i < |rs| && 0 <= j < |rs| && rs[i].vin == rs[j].vin && rs[i].timestamp <= rs[j].timestamp
      ==> rs[i].odometerReading <= rs[j].odometerReading
  }

  /**
    What one vehicle adds to the fleet distance: its latest odometer reading
    minus the odometer of its latest reading at or before the cutoff, or
    nothing when it has no reading at or before the cutoff.
  */
  function Contribution(rs: seq<Reading>, vin: int, cutoff: int): (d: real)
    ensures (forall i :: 0 <= i < |rs| && rs[i].vin == vin ==> rs[i].timestamp > cutoff) ==> d == 0.0
    ensures OdometerMonotone(rs) ==> d >= 0.0
  {
    match (Latest(rs, vin), Latest(AtOrBefore(rs, cutoff), vin))
    case (Some(latest), Some(before)) =>
      assert before in rs;
      latest.odometerReading - before.odometerReading
    case _ => 0.0
  }

  /** The sum of the contributions of the given vins. */
  function SumContributions(vins: seq<int>, rs: seq<Reading>, cutoff: int): (total: real)
    ensures OdometerMonotone(rs) ==> total >= 0.0
    ensures (forall i :: 0 <= i < |rs| ==> rs[i].timestamp > cutoff) ==> total == 0.0
    decreases |vins|
  {
    if vins == [] then 0.0
    else
      var n := |vins| - 1;
      SumContributions(vins[..n], rs, cutoff) + Contribution(rs, vins[n], cutoff)
  }

  /** The latest timestamp among the readings of the given vins. */
  function LatestTimestamp(rs: seq<Reading>, vins: seq<int>): (r: Option<int>)
    ensures r.None? <==> forall i :: 0 <= i < |rs| ==> rs[i].vin !in vins
    ensures r.Some? ==> exists i :: 0 <= i < |rs| && rs[i].vin in vins && rs[i].timestamp == r.value
    ensures r.Some? ==> forall i :: 0 <= i < |rs| && rs[i].vin in vins ==> rs[i].timestamp <= r.value
    decreases |rs|
  {
    if rs == [] then None
    else
      var n := |rs| - 1;
      var prev := LatestTimestamp(rs[..n], vins);
      assert forall i :: 0 <= i < n ==> rs[..n][i] == rs[i];
      if rs[n].vin in vins && (prev.None? || prev.value <= rs[n].timestamp) then Some(rs[n].timestamp)
      else prev
  }

  datatype DistanceOutcome =
    | NoFleetReadings         // no vehicle of the fleet has a reading
    | Computed(total: real)   // the sum of the contributions

  /**
    The distance covered by the vehicles `vins` of a fleet: the cutoff is the
    latest timestamp of any of their readings minus 24 hours, and each vehicle
    adds its contribution.
  */
  function TotalDistance(vins: seq<int>, rs: seq<Reading>): DistanceOutcome {
    var latest := LatestTimestamp(rs, vins);
    if latest.None? then NoFleetReadings
    else Computed(SumContributions(vins, rs, latest.value - DayInSeconds))
  }

  /**
    There is no total exactly when none of `vins` has a reading, and a total
    over odometers that never run backwards is not negative.
  */
  lemma TotalDistanceOutcome(vins: seq<int>, rs: seq<Reading>)
    ensures TotalDistance(vins, rs).NoFleetReadings? <==> forall i :: 0 <= i < |rs| ==> rs[i].vin !in vins
    ensures OdometerMonotone(rs) && TotalDistance(vins, rs).Computed? ==> TotalDistance(vins, rs).total >= 0.0
  {
  }

  lemma TotalDistanceAt(vins: seq<int>, rs: seq<Reading>, latest: int)
    requires LatestTimestamp(rs, vins) == Some(latest)
    ensures TotalDistance(vins, rs) == Computed(SumContributions(vins, rs, latest - DayInSeconds))
  {
  }

  /** `cutoff` is exactly one day before the latest reading of any of `vins`. */
  ghost predicate DayBeforeLatest(rs: seq<Reading>, vins: seq<int>, cutoff: int) {
    && (exists i :: 0 <= i < |rs| && rs[i].vin in vins && rs[i].timestamp == cutoff + DayInSeconds)
    && (forall i :: 0 <= i < |rs| && rs[i].vin in vins ==> rs[i].timestamp <= cutoff + DayInSeconds)
  }

  /**
    The cutoff is taken from the data, not the wall clock: a computed total
    sums the contributions at the cutoff one day before the fleet's latest
    reading.
  */
  lemma TotalDistanceCutoff(vins: seq<int>, rs: seq<Reading>) returns (cutoff: int)
    requires TotalDistance(vins, rs).Computed?
    ensures DayBeforeLatest(rs, vins, cutoff)
    ensures TotalDistance(vins, rs).total == SumContributions(vins, rs, cutoff)
  {
    cutoff := LatestTimestamp(rs, vins).value - DayInSeconds;
    LatestIsDayAfterCutoff(rs, vins);
  }

  lemma LatestIsDayAfterCutoff(rs: seq<Reading>, vins: seq<int>)
    requires LatestTimestamp(rs, vins).Some?
    ensures DayBeforeLatest(rs, vins, LatestTimestamp(rs, vins).value - DayInSeconds)
  {
  }

  /** The distance loop: adds each vehicle's contribution. */
  method SumDistances(vins: seq<int>, rs: seq<Reading>, cutoff: int) returns (total: real)
    ensures total == SumContributions(vins, rs, cutoff)
  {
    total := 0.0;
    var i := 0;
    while i < |vins|
      invariant 0 <= i <= |vins|
      invariant total == SumContributions(vins[..i], rs, cutoff)
    {
      assert vins[..i + 1][..i] == vins[..i];
      assert SumContributions(vins[..i + 1], rs, cutoff)
        == SumContributions(vins[..i], rs, cutoff) + Contribution(rs, vins[i], cutoff);
      var latest := Latest(rs, vins[i]);
      var before := Latest(AtOrBefore(rs, cutoff), vins[i]);
      if latest.Some? && before.Some? {
        total := total + (latest.value.odometerReading - before.value.odometerReading);
      }
      i := i + 1;
    }
    assert vins[..i] == vins;
  }

  /** The distance computation: the fleet's latest timestamp, then the loop at one day before it. */
  method ComputeTotalDistance(vins: seq<int>, rs: seq<Reading>) returns (r: DistanceOutcome)
    ensures r == TotalDistance(vins, rs)
  {
    var latest := LatestTimestamp(rs, vins);
    if latest.None? {
      return NoFleetReadings;
    }
    TotalDistanceAt(vins, rs, latest.value);
    var total := SumDistances(vins, rs, latest.value - DayInSeconds);
    r := Computed(total);
  }
}
