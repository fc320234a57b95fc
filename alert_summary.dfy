/**
  The alert summary: the number of alerts of each type, as a map built in
  one pass over the alert table, and the order in which the types first occur.
*/
module AlertStats {
  import opened Telemetry

  /** How many alerts have the given type. */
  function CountOfType(alerts: seq<Alert>, alertTypeId: int): nat
    decreases |alerts|
  {
    if alerts == [] then 0
    else
      var n := |alerts| - 1;
      CountOfType(alerts[..n], alertTypeId) + (if alerts[n].alertTypeId == alertTypeId then 1 else 0)
  }

  /** The alert types in the order they first occur: the insertion order of the summary dict, which a map does not keep. */
  function FirstSeenTypes(alerts: seq<Alert>): seq<int>
    decreases |alerts|
  {
    if alerts == [] then []
    else
      var n := |alerts| - 1;
      var prev := FirstSeenTypes(alerts[..n]);
      if alerts[n].alertTypeId in prev then prev else prev + [alerts[n].alertTypeId]
  }

  /** The summary: each listed type mapped to the number of alerts that have it. */
  function Histogram(alerts: seq<Alert>): map<int, nat> {
    map t | t in FirstSeenTypes(alerts) :: CountOfType(alerts, t)
  }

  lemma SnocPrefix(alerts: seq<Alert>, a: Alert)
    ensures (alerts + [a])[..|alerts|] == alerts && (alerts + [a])[|alerts|] == a
  {
  }

  /** One more alert: its type joins the order if new, and its count grows by one. */
  lemma {:induction false} FirstSeenTypesSnoc(alerts: seq<Alert>, a: Alert)
    ensures var ks, t := FirstSeenTypes(alerts), a.alertTypeId;
      FirstSeenTypes(alerts + [a]) == if t in ks then ks else ks + [t]
    ensures forall t :: CountOfType(alerts + [a], t) == CountOfType(alerts, t) + (if a.alertTypeId == t then 1 else 0)
  {
    SnocPrefix(alerts, a);
  }

  /** No type is listed twice. */
  lemma {:induction false} FirstSeenTypesDistinct(alerts: seq<Alert>)
    ensures forall i, j :: 0 <= i < j < |FirstSeenTypes(alerts)| ==> FirstSeenTypes(alerts)[i] != FirstSeenTypes(alerts)[j]
    decreases |alerts|
  {
    if alerts != [] {
      var n := |alerts| - 1;
      FirstSeenTypesDistinct(alerts[..n]);
      var prev, t := FirstSeenTypes(alerts[..n]), alerts[n].alertTypeId;
      assert FirstSeenTypes(alerts) == if t in prev then prev else prev + [t];
      if t !in prev {
        var ks := prev + [t];
        forall i, j | 0 <= i < j < |ks|
          ensures ks[i] != ks[j]
        {
          assert ks[i] == prev[i];
          if j == |prev| {
            assert ks[j] == t && prev[i] in prev;
          } else {
            assert ks[j] == prev[j];
          }
        }
      }
    }
  }

  /** A type is listed exactly when some alert has it, and exactly when its count is positive. */
  lemma {:induction false} FirstSeenTypesPresent(alerts: seq<Alert>, alertTypeId: int)
    ensures alertTypeId in FirstSeenTypes(alerts) <==> exists i :: 0 <= i < |alerts| && alerts[i].alertTypeId == alertTypeId
    ensures alertTypeId in FirstSeenTypes(alerts) <==> CountOfType(alerts, alertTypeId) >= 1
    decreases |alerts|
  {
    if alerts != [] {
      var n := |alerts| - 1;
      FirstSeenTypesPresent(alerts[..n], alertTypeId);
      assert forall i :: 0 <= i < n ==> alerts[..n][i] == alerts[i];
    }
  }

  /**
    The summary has a key for each alert type present and no other, and
    maps it to the number of alerts of that type, which is at least one.
  */
  lemma HistogramCounts(alerts: seq<Alert>, alertTypeId: int)
    ensures alertTypeId in Histogram(alerts) <==> exists i :: 0 <= i < |alerts| && alerts[i].alertTypeId == alertTypeId
    ensures alertTypeId in Histogram(alerts) ==> Histogram(alerts)[alertTypeId] == CountOfType(alerts, alertTypeId) >= 1
    ensures alertTypeId !in Histogram(alerts) ==> CountOfType(alerts, alertTypeId) == 0
  {
    FirstSeenTypesPresent(alerts, alertTypeId);
  }

  /** The summary after one more alert: the alert's entry goes up by one, or appears with 1. */
  lemma HistogramSnoc(alerts: seq<Alert>, a: Alert)
    ensures var h, t := Histogram(alerts), a.alertTypeId;
      Histogram(alerts + [a]) == h[t := if t in h then h[t] + 1 else 1]
  {
    var h, t := Histogram(alerts), a.alertTypeId;
    var h' := h[t := if t in h then h[t] + 1 else 1];
    FirstSeenTypesSnoc(alerts, a);
    FirstSeenTypesPresent(alerts, t);
    assert Histogram(alerts + [a]).Keys == h'.Keys;
  }

  /** The sum of the entries of `h` under the keys `ks`; a key without an entry adds nothing. */
  function SumAt(h: map<int, nat>, ks: seq<int>): int
    decreases |ks|
  {
    if ks == [] then 0
    else
      var n := |ks| - 1;
      SumAt(h, ks[..n]) + (if ks[n] in h then h[ks[n]] else 0)
  }

  /** Raising the entry of one key by one raises a sum over distinct keys holding it by one. */
  lemma {:induction false} SumAtBump(h: map<int, nat>, ks: seq<int>, k: int)
    requires forall i, j :: 0 <= i < j < |ks| ==> ks[i] != ks[j]
    requires k in h
    ensures SumAt(h[k := h[k] + 1], ks) == SumAt(h, ks) + (if k in ks then 1 else 0)
    decreases |ks|
  {
    if ks != [] {
      var n := |ks| - 1;
      SumAtBump(h, ks[..n], k);
      assert k == ks[n] ==> k !in ks[..n];
    }
  }

  /** A sum over keys does not see an entry written under a key outside them. */
  lemma {:induction false} SumAtFresh(h: map<int, nat>, ks: seq<int>, k: int, v: nat)
    requires k !in ks
    ensures SumAt(h[k := v], ks) == SumAt(h, ks)
    decreases |ks|
  {
    if ks != [] {
      var n := |ks| - 1;
      assert ks[n] in ks;
      SumAtFresh(h, ks[..n], k, v);
    }
  }

  /** One alert more adds one to the total of the summary over the types in first-seen order. */
  lemma HistogramTotalStep(alerts: seq<Alert>, a: Alert)
    ensures SumAt(Histogram(alerts + [a]), FirstSeenTypes(alerts + [a])) == SumAt(Histogram(alerts), FirstSeenTypes(alerts)) + 1
  {
    var h, ks, t := Histogram(alerts), FirstSeenTypes(alerts), a.alertTypeId;
    FirstSeenTypesDistinct(alerts);
    FirstSeenTypesSnoc(alerts, a);
    HistogramSnoc(alerts, a);
    if t in ks {
      SumAtBump(h, ks, t);
    } else {
      SumAtFresh(h, ks, t, 1);
      var ks' := ks + [t];
      assert ks'[..|ks'| - 1] == ks;
    }
  }

  /** The counts of the summary, taken in first-seen order, add up to the number of alerts. */
  lemma {:induction false} HistogramTotal(alerts: seq<Alert>)
    ensures SumAt(Histogram(alerts), FirstSeenTypes(alerts)) == |alerts|
    decreases |alerts|
  {
    if alerts != [] {
      var n := |alerts| - 1;
      assert alerts == alerts[..n] + [alerts[n]];
      HistogramTotal(alerts[..n]);
      HistogramTotalStep(alerts[..n], alerts[n]);
    }
  }

  /** The alert-summary loop: counts the alerts of each type in one pass. */
  method AlertSummary(alerts: seq<Alert>) returns (summary: map<int, nat>)
    ensures summary == Histogram(alerts)
  {
    summary := map[];
    var i := 0;
    while i < |alerts|
      invariant 0 <= i <= |alerts|
      invariant summary == Histogram(alerts[..i])
    {
      assert alerts[..i + 1] == alerts[..i] + [alerts[i]];
      HistogramSnoc(alerts[..i], alerts[i]);
      var k := alerts[i].alertTypeId;
      if k !in summary {
        summary := summary[k := 1];
      } else {
        summary := summary[k := summary[k] + 1];
      }
      i := i + 1;
    }
    assert alerts[..i] == alerts;
  }
}
