/**
  The cache-gated fleet endpoints: the average fuel level of a fleet and the
  distance a fleet covered in its last 24 hours of readings. The key/value
  store in front of them is a map from keys to stored values; a stored value
  either parses as a number or does not.

  Each endpoint is a function from the cache and the tables to the reply and
  the new cache; the `FleetCache` class holds the cache as a field and its
  methods, which run the accumulator loops, are proved equal to those
  functions.
*/
module FleetEndpoints {
  import opened Common
  import opened Telemetry
  import opened FleetStats
  import opened FleetFuel
  import opened FleetDistance

  // ---------------------------------------------------------------------------
  // Cache keys

  function Digit(d: int): (c: char)
    requires 0 <= d < 10
    ensures '0' <= c <= '9'
  {
    ('0' as int + d) as char
  }

  /** The decimal digits of a natural number, most significant first, without leading zeros. */
  function NatString(n: nat): (s: string)
    ensures |s| >= 1
    ensures forall i :: 0 <= i < |s| ==> '0' <= s[i] <= '9'
    ensures n < 10 <==> |s| == 1
    decreases n
  {
    if n < 10 then [Digit(n)] else NatString(n / 10) + [Digit(n % 10)]
  }

  /** How an integer is written in a format string: a minus sign for negatives, then its digits. */
  function DecimalString(n: int): (s: string)
    ensures |s| >= 1
    ensures s[0] == '-' <==> n < 0
  {
    if n < 0 then "-" + NatString(-n) else NatString(n)
  }

  lemma {:induction false} NatStringInjective(a: nat, b: nat)
    requires NatString(a) == NatString(b)
    ensures a == b
    decreases a
  {
    if a >= 10 && b >= 10 {
      var sa := NatString(a);
      var n := |sa| - 1;
      assert sa[..n] == NatString(a / 10) && sa[n] == Digit(a % 10);
      assert NatString(b)[..n] == NatString(b / 10) && NatString(b)[n] == Digit(b % 10);
      NatStringInjective(a / 10, b / 10);
    }
  }

  /** Distinct integers are written differently. */
  lemma DecimalStringInjective(a: int, b: int)
    requires DecimalString(a) == DecimalString(b)
    ensures a == b
  {
    if a < 0 {
      assert DecimalString(a)[1..] == NatString(-a);
      assert DecimalString(b)[1..] == NatString(-b);
      NatStringInjective(-a, -b);
    } else {
      NatStringInjective(a, b);
    }
  }

  /** The distance key of a fleet, the fleet id followed by `distTot`. */
  function DistanceKey(fleetId: int): string {
    DecimalString(fleetId) + "distTot"
  }

  /** The per-fleet average-fuel key the handler evidently means: the fleet id followed by `avgFuel`. */
  function AvgFuelKey(fleetId: int): string {
    DecimalString(fleetId) + "avgFuel"
  }

  /** The average-fuel key as the handler writes it: a plain literal, the same for every fleet. */
  const AvgFuelKeyAsWritten: string := "{fleet_id}avgFuel"

  lemma SuffixCancels(a: string, b: string, suffix: string)
    requires a + suffix == b + suffix
    ensures a == b
  {
    assert |a| == |b|;
    assert (a + suffix)[..|a|] == a;
    assert (b + suffix)[..|b|] == b;
  }

  /**
    Keys never collide: each fleet has its own distance key and its own
    average-fuel key, no distance key is an average-fuel key, and the literal
    key is none of the per-fleet keys.
  */
  lemma CacheKeysDistinct(f: int, g: int)
    ensures DistanceKey(f) == DistanceKey(g) <==> f == g
    ensures AvgFuelKey(f) == AvgFuelKey(g) <==> f == g
    ensures DistanceKey(f) != AvgFuelKey(g)
    ensures AvgFuelKeyAsWritten != DistanceKey(f) && AvgFuelKeyAsWritten != AvgFuelKey(f)
  {
    if DistanceKey(f) == DistanceKey(g) {
      SuffixCancels(DecimalString(f), DecimalString(g), "distTot");
      DecimalStringInjective(f, g);
    }
    if AvgFuelKey(f) == AvgFuelKey(g) {
      SuffixCancels(DecimalString(f), DecimalString(g), "avgFuel");
      DecimalStringInjective(f, g);
    }
    var d, a := DistanceKey(f), AvgFuelKey(g);
    assert d[|d| - 1] == 't' && a[|a| - 1] == 'l';
    var df := DecimalString(f);
    assert AvgFuelKey(f)[0] == df[0] && df[0] != '{';
    assert DistanceKey(f)[0] == df[0];
  }

  // ---------------------------------------------------------------------------
  // The cache

  datatype CacheValue =
    | Number(value: real)   // stored bytes that parse as a float
    | Malformed             // stored bytes that do not

  type Cache = map<string, CacheValue>

  /** A GET reply: nothing stored under the key, or the stored bytes. */
  datatype Reply = Nil | Bulk(stored: CacheValue)

  function Get(cache: Cache, key: string): (r: Reply)
    ensures r.Nil? <==> key !in cache
    ensures r.Bulk? ==> r.stored == cache[key]
  {
    if key in cache then Bulk(cache[key]) else Nil
  }

  /** A handler's reply together with the cache it leaves behind. */
  datatype Served<T> = Served(body: T, cache: Cache)

  /** The number stored under `key`, when there is one that parses. */
  predicate NumericHit(cache: Cache, key: string) {
    key in cache && cache[key].Number?
  }

  // ---------------------------------------------------------------------------
  // Average fuel level of a fleet

  /**
    The gate `reply != -1`: a GET reply is either nothing or bytes, and
    neither equals the integer -1.
  */
  function DiffersFromMinusOne(reply: Reply): bool {
    match reply
    case Nil => true
    case Bulk(_) => true
  }

  datatype AvgFuelReply =
    | CachedReply(reply: Reply)                    // whatever the store returned, passed through
    | Average(avg: Result<real, AvgFuelError>)     // the computed average, or the way it failed

  /**
    The average-fuel handler as written: it reads the literal key, and since
    the gate always passes it returns that reply for every fleet, never
    computes, and never writes the cache.
  */
  function AvgFuelLevelsAsWritten(cache: Cache, fleetId: int, vehicles: seq<Vehicle>, rs: seq<Reading>): (s: Served<AvgFuelReply>)
    ensures s.cache == cache
    ensures s.body == CachedReply(Get(cache, AvgFuelKeyAsWritten))
  {
    var reply := Get(cache, AvgFuelKeyAsWritten);
    if DiffersFromMinusOne(reply) then Served(CachedReply(reply), cache)
    else
      match AverageFuel(FleetVins(vehicles, fleetId), rs)
      case Ok(avg) => Served(Average(Ok(avg)), cache[AvgFuelKeyAsWritten := Number(avg)])
      case Err(e) => Served(Average(Err(e)), cache)
  }

  /**
    The average-fuel handler with the per-fleet key and the same gate as the
    distance handler: a stored number is returned as it is; otherwise the
    average is computed, and stored when it exists.
  */
  function AvgFuelLevels(cache: Cache, fleetId: int, vehicles: seq<Vehicle>, rs: seq<Reading>): (s: Served<Result<real, AvgFuelError>>)
    ensures NumericHit(cache, AvgFuelKey(fleetId)) ==> s == Served(Ok(cache[AvgFuelKey(fleetId)].value), cache)
    ensures !NumericHit(cache, AvgFuelKey(fleetId)) ==> s.body == AverageFuel(FleetVins(vehicles, fleetId), rs)
    ensures s.body.Err? ==> s.cache == cache
    ensures s.body.Ok? ==> s.cache == cache[AvgFuelKey(fleetId) := Number(s.body.value)]
  {
    var key := AvgFuelKey(fleetId);
    if NumericHit(cache, key) then
      assert cache[key := cache[key]] == cache;
      Served(Ok(cache[key].value), cache)
    else
      match AverageFuel(FleetVins(vehicles, fleetId), rs)
      case Ok(avg) => Served(Ok(avg), cache[key := Number(avg)])
      case Err(e) => Served(Err(e), cache)
  }

  /**
    Counterexample for the handler as written: with an empty cache and a
    fleet of one vehicle that has a reading, it answers with nothing, where
    the per-fleet handler answers with that vehicle's fuel level.
  */
  lemma AsWrittenNeverComputes(fleetId: int)
    ensures var vehicles := [Vehicle(7, fleetId)];
      var rs := [Reading(1, 7, 0.0, 0.0, 0.0, Off, 0.5, 0.0, 0, 0)];
      && AvgFuelLevelsAsWritten(map[], fleetId, vehicles, rs).body == CachedReply(Nil)
      && AvgFuelLevels(map[], fleetId, vehicles, rs).body == Ok(0.5)
  {
    var vehicles := [Vehicle(7, fleetId)];
    var rs := [Reading(1, 7, 0.0, 0.0, 0.0, Off, 0.5, 0.0, 0, 0)];
    assert vehicles[..0] == [];
    assert FleetVins(vehicles, fleetId) == [7];
    assert Latest(rs, 7) == Some(rs[0]) by {
      assert rs[..0] == [];
    }
    assert [7][..0] == [];
    assert LatestFuelSum([7], rs) == Ok(0.5);
  }

  /** The as-written handler gives every fleet the same answer. */
  lemma AsWrittenSharedByFleets(cache: Cache, f: int, g: int, vehicles: seq<Vehicle>, rs: seq<Reading>)
    ensures AvgFuelLevelsAsWritten(cache, f, vehicles, rs) == AvgFuelLevelsAsWritten(cache, g, vehicles, rs)
  {
  }

  /** Asking twice gives the same answer, and the second call writes nothing. */
  lemma AvgFuelLevelsStable(cache: Cache, fleetId: int, vehicles: seq<Vehicle>, rs: seq<Reading>)
    ensures var first := AvgFuelLevels(cache, fleetId, vehicles, rs);
      var second := AvgFuelLevels(first.cache, fleetId, vehicles, rs);
      second.body == first.body && second.cache == first.cache
  {
  }

  /** A call writes at most its own fleet's average-fuel key: every other key reads the same afterwards. */
  lemma AvgFuelLevelsFrame(cache: Cache, fleetId: int, vehicles: seq<Vehicle>, rs: seq<Reading>, key: string)
    requires key != AvgFuelKey(fleetId)
    ensures Get(AvgFuelLevels(cache, fleetId, vehicles, rs).cache, key) == Get(cache, key)
  {
  }

  /**
    In particular, the average-fuel entries of other fleets, every distance
    entry and the literal key read the same afterwards.
  */
  lemma AvgFuelLevelsFrameKeys(cache: Cache, fleetId: int, vehicles: seq<Vehicle>, rs: seq<Reading>, other: int)
    ensures var after := AvgFuelLevels(cache, fleetId, vehicles, rs).cache;
      && (other != fleetId ==> Get(after, AvgFuelKey(other)) == Get(cache, AvgFuelKey(other)))
      && Get(after, DistanceKey(other)) == Get(cache, DistanceKey(other))
      && Get(after, AvgFuelKeyAsWritten) == Get(cache, AvgFuelKeyAsWritten)
  {
    CacheKeysDistinct(other, fleetId);
    CacheKeysDistinct(fleetId, other);
    if other != fleetId {
      AvgFuelLevelsFrame(cache, fleetId, vehicles, rs, AvgFuelKey(other));
    }
    AvgFuelLevelsFrame(cache, fleetId, vehicles, rs, DistanceKey(other));
    AvgFuelLevelsFrame(cache, fleetId, vehicles, rs, AvgFuelKeyAsWritten);
  }

  /** When every stored fuel level lies in [lo, hi] and so does any cached number, so does the answer. */
  lemma AvgFuelLevelsBounds(cache: Cache, fleetId: int, vehicles: seq<Vehicle>, rs: seq<Reading>, lo: real, hi: real)
    requires forall i :: 0 <= i < |rs| ==> lo <= rs[i].fuel <= hi
    requires NumericHit(cache, AvgFuelKey(fleetId)) ==> lo <= cache[AvgFuelKey(fleetId)].value <= hi
    requires AvgFuelLevels(cache, fleetId, vehicles, rs).body.Ok?
    ensures lo <= AvgFuelLevels(cache, fleetId, vehicles, rs).body.value <= hi
  {
    if !NumericHit(cache, AvgFuelKey(fleetId)) {
      AverageFuelBounds(FleetVins(vehicles, fleetId), rs, lo, hi);
    }
  }

  // ---------------------------------------------------------------------------
  // Distance covered by a fleet

  /**
    The distance handler: a stored number under the fleet's key is returned
    without reading the tables; otherwise the distance is computed, answered
    with 0.0 and nothing written when the fleet has no readings, and stored
    under the fleet's key when it was computed.
  */
  function TotalDistanceTraveled(cache: Cache, fleetId: int, vehicles: seq<Vehicle>, rs: seq<Reading>): (s: Served<real>)
    ensures NumericHit(cache, DistanceKey(fleetId)) ==> s == Served(cache[DistanceKey(fleetId)].value, cache)
    ensures !NumericHit(cache, DistanceKey(fleetId)) && TotalDistance(FleetVins(vehicles, fleetId), rs).NoFleetReadings?
      ==> s == Served(0.0, cache)
    ensures !NumericHit(cache, DistanceKey(fleetId)) && TotalDistance(FleetVins(vehicles, fleetId), rs).Computed?
      ==> (&& s.body == TotalDistance(FleetVins(vehicles, fleetId), rs).total
           && s.cache == cache[DistanceKey(fleetId) := Number(s.body)])
  {
    var key := DistanceKey(fleetId);
    if NumericHit(cache, key) then Served(cache[key].value, cache)
    else
      match TotalDistance(FleetVins(vehicles, fleetId), rs)
      case NoFleetReadings => Served(0.0, cache)
      case Computed(total) => Served(total, cache[key := Number(total)])
  }

  /** Without a numeric hit and without any reading of the fleet, the answer is 0.0 and nothing is written. */
  lemma TotalDistanceNoReadings(cache: Cache, fleetId: int, vehicles: seq<Vehicle>, rs: seq<Reading>)
    requires !NumericHit(cache, DistanceKey(fleetId))
    requires forall i :: 0 <= i < |rs| ==> rs[i].vin !in FleetVins(vehicles, fleetId)
    ensures TotalDistanceTraveled(cache, fleetId, vehicles, rs) == Served(0.0, cache)
  {
    TotalDistanceOutcome(FleetVins(vehicles, fleetId), rs);
  }

  /** On a numeric hit the answer does not depend on the tables. */
  lemma DistanceHitIgnoresTables(cache: Cache, fleetId: int, vehicles: seq<Vehicle>, rs: seq<Reading>,
                                 vehicles': seq<Vehicle>, rs': seq<Reading>)
    requires NumericHit(cache, DistanceKey(fleetId))
    ensures TotalDistanceTraveled(cache, fleetId, vehicles, rs) == TotalDistanceTraveled(cache, fleetId, vehicles', rs')
  {
  }

  /** Asking twice gives the same answer, and the second call writes nothing. */
  lemma TotalDistanceStable(cache: Cache, fleetId: int, vehicles: seq<Vehicle>, rs: seq<Reading>)
    ensures var first := TotalDistanceTraveled(cache, fleetId, vehicles, rs);
      var second := TotalDistanceTraveled(first.cache, fleetId, vehicles, rs);
      second.body == first.body && second.cache == first.cache
  {
  }

  /** A call writes at most its own fleet's distance key: every other key reads the same afterwards. */
  lemma TotalDistanceFrame(cache: Cache, fleetId: int, vehicles: seq<Vehicle>, rs: seq<Reading>, key: string)
    requires key != DistanceKey(fleetId)
    ensures Get(TotalDistanceTraveled(cache, fleetId, vehicles, rs).cache, key) == Get(cache, key)
  {
  }

  /**
    In particular, the distance entries of other fleets, every average-fuel
    entry and the literal key read the same afterwards.
  */
  lemma TotalDistanceFrameKeys(cache: Cache, fleetId: int, vehicles: seq<Vehicle>, rs: seq<Reading>, other: int)
    ensures var after := TotalDistanceTraveled(cache, fleetId, vehicles, rs).cache;
      && (other != fleetId ==> Get(after, DistanceKey(other)) == Get(cache, DistanceKey(other)))
      && Get(after, AvgFuelKey(other)) == Get(cache, AvgFuelKey(other))
      && Get(after, AvgFuelKeyAsWritten) == Get(cache, AvgFuelKeyAsWritten)
  {
    CacheKeysDistinct(other, fleetId);
    CacheKeysDistinct(fleetId, other);
    if other != fleetId {
      TotalDistanceFrame(cache, fleetId, vehicles, rs, DistanceKey(other));
    }
    TotalDistanceFrame(cache, fleetId, vehicles, rs, AvgFuelKey(other));
    TotalDistanceFrame(cache, fleetId, vehicles, rs, AvgFuelKeyAsWritten);
  }

  /**
    With odometers that never run backwards and no negative number cached,
    the distance answered is never negative.
  */
  lemma TotalDistanceNonNegative(cache: Cache, fleetId: int, vehicles: seq<Vehicle>, rs: seq<Reading>)
    requires OdometerMonotone(rs)
    requires NumericHit(cache, DistanceKey(fleetId)) ==> cache[DistanceKey(fleetId)].value >= 0.0
    ensures TotalDistanceTraveled(cache, fleetId, vehicles, rs).body >= 0.0
  {
  }

  // ---------------------------------------------------------------------------
  // The handlers over a live cache

  /** The key/value store in front of the fleet endpoints. */
  class FleetCache {
    var entries: Cache

    constructor ()
      ensures entries == map[]
    {
      entries := map[];
    }

    /** The average-fuel handler as written. */
    method GetAvgFuelLevelsAsWritten(fleetId: int, vehicles: seq<Vehicle>, rs: seq<Reading>) returns (reply: AvgFuelReply)
      modifies this
      ensures Served(reply, entries) == AvgFuelLevelsAsWritten(old(entries), fleetId, vehicles, rs)
    {
      var cached := Get(entries, AvgFuelKeyAsWritten);
      var updated := entries;
      if DiffersFromMinusOne(cached) {
        reply := CachedReply(cached);
      } else {
        var avg := ComputeAverageFuel(FleetVins(vehicles, fleetId), rs);
        match avg {
          case Ok(v) => updated := updated[AvgFuelKeyAsWritten := Number(v)];
          case Err(_) =>
        }
        reply := Average(avg);
      }
      entries := updated;
    }

    /** The average-fuel handler with the per-fleet key. */
    method GetAvgFuelLevels(fleetId: int, vehicles: seq<Vehicle>, rs: seq<Reading>) returns (r: Result<real, AvgFuelError>)
      modifies this
      ensures Served(r, entries) == AvgFuelLevels(old(entries), fleetId, vehicles, rs)
    {
      var key := AvgFuelKey(fleetId);
      if key in entries && entries[key].Number? {
        return Ok(entries[key].value);
      }
      r := ComputeAverageFuel(FleetVins(vehicles, fleetId), rs);
      if r.Ok? {
        entries := entries[key := Number(r.value)];
      }
    }

    /** The distance handler. */
    method GetTotalDistanceTraveled(fleetId: int, vehicles: seq<Vehicle>, rs: seq<Reading>) returns (total: real)
      modifies this
      ensures Served(total, entries) == TotalDistanceTraveled(old(entries), fleetId, vehicles, rs)
    {
      var key := DistanceKey(fleetId);
      if key in entries && entries[key].Number? {
        return entries[key].value;
      }
      var outcome := ComputeTotalDistance(FleetVins(vehicles, fleetId), rs);
      match outcome
      case NoFleetReadings =>
        total := 0.0;
      case Computed(sum) =>
        total := sum;
        entries := entries[key := Number(sum)];
    }
  }
}
