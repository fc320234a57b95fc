/**
  The average fuel level of a fleet: the mean over the fleet's vehicles of
  each one's latest fuel level, and the loop that computes it.
*/
module FleetFuel {
  import opened Common
  import opened Telemetry
  import opened FleetStats

  datatype AvgFuelError =
    | NoReading(vin: int)   // the first fleet vehicle that has no reading
    | DivisionByZero        // the fleet has no vehicles

  /**
    The sum of the latest fuel level of each vin in order; it fails at the
    first vin without a reading.
  */
  function LatestFuelSum(vins: seq<int>, rs: seq<Reading>): (r: Result<real, AvgFuelError>)
    ensures r.Ok? <==> forall k :: 0 <= k < |vins| ==> Latest(rs, vins[k]).Some?
    decreases |vins|
  {
    if vins == [] then Ok(0.0)
    else
      var n := |vins| - 1;
      assert forall k :: 0 <= k < n ==> vins[..n][k] == vins[k];
      match LatestFuelSum(vins[..n], rs)
      case Err(e) => Err(e)
      case Ok(total) =>
        match Latest(rs, vins[n])
        case None => Err(NoReading(vins[n]))
        case Some(reading) => Ok(total + reading.fuel)
  }

  /** A failed sum names the first vin, in fleet order, that has no reading. */
  lemma {:induction false} LatestFuelSumFirstMissing(vins: seq<int>, rs: seq<Reading>) returns (k: nat)
    requires LatestFuelSum(vins, rs).Err?
    ensures k < |vins| && LatestFuelSum(vins, rs).error == NoReading(vins[k])
    ensures Latest(rs, vins[k]).None?
    ensures forall j :: 0 <= j < k ==> Latest(rs, vins[j]).Some?
    decreases |vins|
  {
    var n := |vins| - 1;
    assert forall j :: 0 <= j < n ==> vins[..n][j] == vins[j];
    if LatestFuelSum(vins[..n], rs).Err? {
      k := LatestFuelSumFirstMissing(vins[..n], rs);
    } else {
      k := n;
    }
  }

  /**
    The mean over the fleet's vehicles of each one's latest fuel level; it
    fails when a vehicle has no reading or when there is no vehicle.
  */
  function AverageFuel(vins: seq<int>, rs: seq<Reading>): (r: Result<real, AvgFuelError>)
    ensures r.Ok? ==> |vins| > 0
    ensures r.Ok? ==> LatestFuelSum(vins, rs).Ok?
    ensures r.Ok? ==> LatestFuelSum(vins, rs).value == r.value * (|vins| as real)
    ensures |vins| == 0 ==> r == Err(DivisionByZero)
  {
    match LatestFuelSum(vins, rs)
    case Err(e) => Err(e)
    case Ok(total) =>
      if |vins| == 0 then Err(DivisionByZero)
      else
        var n := |vins| as real;
        var avg := total / n;
        assert avg * n == total;
        Ok(avg)
  }

  /** The average exists exactly when the fleet has vehicles and each of them has a reading. */
  lemma AverageFuelDefined(vins: seq<int>, rs: seq<Reading>)
    ensures AverageFuel(vins, rs).Ok? <==> |vins| > 0 && forall k :: 0 <= k < |vins| ==> Latest(rs, vins[k]).Some?
  {
  }

  /** `x` added to itself `n` times. */
  function Repeat(n: nat, x: real): real {
    if n == 0 then 0.0 else Repeat(n - 1, x) + x
  }

  lemma {:induction false} RepeatIsProduct(n: nat, x: real)
    ensures Repeat(n, x) == x * (n as real)
  {
    if n > 0 {
      RepeatIsProduct(n - 1, x);
      assert x * (n as real) == x * ((n - 1) as real) + x;
    }
  }

  /** The latest fuel sum of n vins lies between n times the lowest and n times the highest fuel level. */
  lemma {:induction false} LatestFuelSumBounds(vins: seq<int>, rs: seq<Reading>, lo: real, hi: real)
    requires forall i :: 0 <= i < |rs| ==> lo <= rs[i].fuel <= hi
    requires LatestFuelSum(vins, rs).Ok?
    ensures Repeat(|vins|, lo) <= LatestFuelSum(vins, rs).value <= Repeat(|vins|, hi)
    decreases |vins|
  {
    if vins != [] {
      var n := |vins| - 1;
      var prefix := LatestFuelSum(vins[..n], rs);
      var latest := Latest(rs, vins[n]);
      assert prefix.Ok? && latest.Some? && LatestFuelSum(vins, rs) == Ok(prefix.value + latest.value.fuel);
      LatestFuelSumBounds(vins[..n], rs, lo, hi);
      assert lo <= latest.value.fuel <= hi;
    }
  }

  /** When every stored fuel level lies in [lo, hi], so does the fleet average. */
  lemma AverageFuelBounds(vins: seq<int>, rs: seq<Reading>, lo: real, hi: real)
    requires forall i :: 0 <= i < |rs| ==> lo <= rs[i].fuel <= hi
    requires AverageFuel(vins, rs).Ok?
    ensures lo <= AverageFuel(vins, rs).value <= hi
  {
    LatestFuelSumBounds(vins, rs, lo, hi);
    MeanOfRepeatedBounds(|vins|, LatestFuelSum(vins, rs).value, AverageFuel(vins, rs).value, lo, hi);
  }

  /** A mean of n values whose sum lies between n copies of lo and n copies of hi lies in [lo, hi]. */
  lemma MeanOfRepeatedBounds(n: nat, sum: real, avg: real, lo: real, hi: real)
    requires n > 0 && sum == avg * (n as real)
    requires Repeat(n, lo) <= sum <= Repeat(n, hi)
    ensures lo <= avg <= hi
  {
    RepeatIsProduct(n, lo);
    RepeatIsProduct(n, hi);
    MeanWithin(sum, avg, n as real, lo, hi, Repeat(n, lo), Repeat(n, hi));
  }

  /** A mean lies within the bounds its sum lies within, scaled by the count. */
  lemma MeanWithin(sum: real, avg: real, n: real, lo: real, hi: real, loTotal: real, hiTotal: real)
    requires n > 0.0 && sum == avg * n
    requires loTotal == lo * n && hiTotal == hi * n
    requires loTotal <= sum <= hiTotal
    ensures lo <= avg <= hi
  {
  }

  /** The average-fuel loop: adds each vehicle's latest fuel and divides by the count. */
  method ComputeAverageFuel(vins: seq<int>, rs: seq<Reading>) returns (r: Result<real, AvgFuelError>)
    ensures r == AverageFuel(vins, rs)
  {
    var totalFuel := 0.0;
    var count := 0;
    var i := 0;
    while i < |vins|
      invariant 0 <= i <= |vins|
      invariant count == i
      invariant LatestFuelSum(vins[..i], rs) == Ok(totalFuel)
    {
      var value := Latest(rs, vins[i]);
      LatestFuelSumStep(vins, rs, i);
      if value.None? {
        LatestFuelSumFailureSticks(vins, rs, i + 1);
        return Err(NoReading(vins[i]));
      }
      totalFuel := totalFuel + value.value.fuel;
      count := count + 1;
      i := i + 1;
    }
    assert vins[..i] == vins;
    if count == 0 {
      return Err(DivisionByZero);
    }
    r := Ok(totalFuel / count as real);
  }

  /** The sum over the first i + 1 vins extends the sum over the first i by the next vin's latest fuel. */
  lemma LatestFuelSumStep(vins: seq<int>, rs: seq<Reading>, i: nat)
    requires i < |vins| && LatestFuelSum(vins[..i], rs).Ok?
    ensures Latest(rs, vins[i]).None? ==> LatestFuelSum(vins[..i + 1], rs) == Err(NoReading(vins[i]))
    ensures Latest(rs, vins[i]).Some? ==>
      LatestFuelSum(vins[..i + 1], rs) == Ok(LatestFuelSum(vins[..i], rs).value + Latest(rs, vins[i]).value.fuel)
  {
    assert vins[..i + 1][..i] == vins[..i];
  }

  /** Once the sum over a prefix has failed, the sum over the whole sequence fails the same way. */
  lemma {:induction false} LatestFuelSumFailureSticks(vins: seq<int>, rs: seq<Reading>, m: nat)
    requires m <= |vins|
    requires LatestFuelSum(vins[..m], rs).Err?
    ensures LatestFuelSum(vins, rs) == LatestFuelSum(vins[..m], rs)
    decreases |vins| - m
  {
    if m < |vins| {
      var n := |vins| - 1;
      assert vins[..n][..m] == vins[..m];
      LatestFuelSumFailureSticks(vins[..n], rs, m);
    } else {
      assert vins[..m] == vins;
    }
  }
}
