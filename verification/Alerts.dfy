/** Active alerts by severity (derive_alerts.go), from the paged server list to the gauges. */
module Alerts {
  import opened Prelude
  import opened Metrics
  import opened Topologies
  import opened Snapshots
  import opened Pagination

  const ACTIVE := "ACTIVE"

  function Upper(c: char): char
  {
    if 'a' <= c <= 'z' then c - 'a' + 'A' else c
  }

  /** strings.EqualFold(state, "ACTIVE"): none of these letters folds outside ASCII. */
  predicate IsActive(state: string)
  {
    |state| == |ACTIVE| && forall k :: 0 <= k < |state| ==> Upper(state[k]) == ACTIVE[k]
  }

  const KNOWN := ["Critical", "Major", "Minor", "Info", "None"]

  /** How many active alerts have this severity. */
  function CountOf(alerts: seq<AlertEntry>, severity: string): nat
  {
    if alerts == [] then 0
    else
      var n := |alerts| - 1;
      CountOf(alerts[..n], severity) + if IsActive(alerts[n].state) && alerts[n].severity == severity then 1 else 0
  }

  function CountActive(alerts: seq<AlertEntry>): nat
  {
    if alerts == [] then 0
    else CountActive(alerts[..|alerts| - 1]) + if IsActive(alerts[|alerts| - 1].state) then 1 else 0
  }

  function CountIn(counts: map<string, nat>, severity: string): nat
  {
    if severity in counts then counts[severity] else 0
  }

  ghost predicate Counts(counts: map<string, nat>, alerts: seq<AlertEntry>)
  {
    forall severity ::
      && CountIn(counts, severity) == CountOf(alerts, severity)
      && (severity in counts ==> counts[severity] > 0)
  }

  function Gauge(a: string, clusterId: string, severity: string, n: nat): Sample
  {
    Sample(ALERT + "active", AlertLabels(a, clusterId, severity), n as real)
  }

  /** One gauge per severity, in the order given. */
  function Gauges(a: string, clusterId: string, severities: seq<string>, alerts: seq<AlertEntry>): (out: seq<Sample>)
    ensures |out| == |severities|
    ensures Good(out, a)
  {
    if severities == [] then []
    else
      var n := |severities| - 1;
      AlertName("active");
      Gauges(a, clusterId, severities[..n], alerts) +
      [Gauge(a, clusterId, severities[n], CountOf(alerts, severities[n]))]
  }

  /** The known severities first, in their fixed order; then each other one with an active alert. */
  ghost predicate SeverityOrder(severities: seq<string>, alerts: seq<AlertEntry>)
  {
    && NoDup(severities) && |severities| >= |KNOWN| && severities[..|KNOWN|] == KNOWN
    && forall severity :: severity in severities <==> severity in KNOWN || CountOf(alerts, severity) > 0
  }

  lemma KnownNoDup()
    ensures NoDup(KNOWN)
  {
    assert |KNOWN[0]| == 8 && |KNOWN[1]| == 5 && |KNOWN[2]| == 5 && |KNOWN[3]| == 4 && |KNOWN[4]| == 4;
    assert KNOWN[1][1] != KNOWN[2][1] && KNOWN[3][0] != KNOWN[4][0];
  }

  method CountBySeverity(alerts: seq<AlertEntry>) returns (counts: map<string, nat>)
    ensures Counts(counts, alerts)
  {
    counts := map[];
    for i := 0 to |alerts|
      invariant Counts(counts, alerts[..i])
    {
      assert alerts[..i + 1][..i] == alerts[..i];
      if IsActive(alerts[i].state) {
        counts := counts[alerts[i].severity := CountIn(counts, alerts[i].severity) + 1];
      }
    }
    assert alerts[..|alerts|] == alerts;
  }

  lemma GaugesSnoc(a: string, clusterId: string, severities: seq<string>, severity: string, alerts: seq<AlertEntry>)
    ensures Gauges(a, clusterId, severities + [severity], alerts) ==
      Gauges(a, clusterId, severities, alerts) + [Gauge(a, clusterId, severity, CountOf(alerts, severity))]
  {
    assert (severities + [severity])[..|severities|] == severities;
  }

  ghost predicate IsAlertPart(out: seq<Sample>, a: string, clusterId: string, alerts: seq<AlertEntry>)
  {
    exists severities :: SeverityOrder(severities, alerts) && out == Gauges(a, clusterId, severities, alerts)
  }

  method DeriveAlerts(a: string, t: Topology) returns (out: seq<Sample>)
    ensures IsAlertPart(out, a, t.ClusterId(), t.alerts)
  {
    var counts := CountBySeverity(t.alerts);
    out := [];
    var known: set<string> := {};
    for i := 0 to |KNOWN|
      invariant out == Gauges(a, t.ClusterId(), KNOWN[..i], t.alerts)
      invariant known == Elems(KNOWN[..i])
    {
      var severity := KNOWN[i];
      assert KNOWN[..i + 1] == KNOWN[..i] + [severity];
      GaugesSnoc(a, t.ClusterId(), KNOWN[..i], severity, t.alerts);
      known := known + {severity};
      out := out + [Gauge(a, t.ClusterId(), severity, CountIn(counts, severity))];
    }
    assert KNOWN[..|KNOWN|] == KNOWN;
    out := OtherSeverities(a, t, counts, known, out);
  }

  /** The second loop: severities PowerStore does not document still get a gauge. */
  method OtherSeverities(a: string, t: Topology, counts: map<string, nat>, known: set<string>, first: seq<Sample>)
    returns (out: seq<Sample>)
    requires Counts(counts, t.alerts) && known == Elems(KNOWN) && first == Gauges(a, t.ClusterId(), KNOWN, t.alerts)
    ensures IsAlertPart(out, a, t.ClusterId(), t.alerts)
  {
    KnownNoDup();
    out := first;
    ghost var severities := KNOWN;
    var order := KeysInSomeOrder(counts);
    for i := 0 to |order|
      invariant NoDup(severities) && KNOWN <= severities
      invariant Elems(severities) == known + Elems(order[..i])
      invariant out == Gauges(a, t.ClusterId(), severities, t.alerts)
    {
      var severity := order[i];
      assert severity in Elems(order);
      assert order[..i + 1] == order[..i] + [severity];
      ElemsSnoc(order[..i], severity);
      if severity !in known {
        ElemsSnoc(severities, severity);
        assert severity !in Elems(severities);
        GaugesSnoc(a, t.ClusterId(), severities, severity, t.alerts);
        severities := severities + [severity];
        out := out + [Gauge(a, t.ClusterId(), severity, counts[severity])];
      }
    }
    assert order[..|order|] == order;
    AllSeverities(severities, counts, t.alerts);
  }

  lemma AllSeverities(severities: seq<string>, counts: map<string, nat>, alerts: seq<AlertEntry>)
    requires Counts(counts, alerts) && NoDup(severities) && KNOWN <= severities
    requires Elems(severities) == Elems(KNOWN) + counts.Keys
    ensures SeverityOrder(severities, alerts)
  {
    forall severity
      ensures severity in severities <==> severity in KNOWN || CountOf(alerts, severity) > 0
    {
      assert severity in severities <==> severity in Elems(severities);
      assert CountIn(counts, severity) == CountOf(alerts, severity);
    }
  }

  lemma ElemsSnoc<T>(s: seq<T>, x: T)
    ensures Elems(s + [x]) == Elems(s) + {x}
    ensures NoDup(s) && x !in Elems(s) ==> NoDup(s + [x])
  {
    assert forall i :: 0 <= i < |s| ==> s[i] in Elems(s);
  }

  // ---------------------------------------------------------------- conservation

  function SumValues(samples: seq<Sample>): real
  {
    if samples == [] then 0.0 else SumValues(samples[..|samples| - 1]) + samples[|samples| - 1].value
  }

  function SumCounts(severities: seq<string>, alerts: seq<AlertEntry>): nat
  {
    if severities == [] then 0
    else SumCounts(severities[..|severities| - 1], alerts) + CountOf(alerts, severities[|severities| - 1])
  }

  lemma {:induction false} GaugesSum(a: string, clusterId: string, severities: seq<string>, alerts: seq<AlertEntry>)
    ensures SumValues(Gauges(a, clusterId, severities, alerts)) == SumCounts(severities, alerts) as real
  {
    if severities != [] {
      GaugesSum(a, clusterId, severities[..|severities| - 1], alerts);
      var n := |severities| - 1;
      assert Gauges(a, clusterId, severities, alerts)[..n] == Gauges(a, clusterId, severities[..n], alerts);
    }
  }

  /** One more alert raises the total by one if it is active and its severity is listed. */
  lemma {:induction false} SumCountsSnoc(severities: seq<string>, alerts: seq<AlertEntry>, e: AlertEntry)
    requires NoDup(severities)
    ensures SumCounts(severities, alerts + [e]) ==
      SumCounts(severities, alerts) + if IsActive(e.state) && e.severity in severities then 1 else 0
  {
    assert (alerts + [e])[..|alerts|] == alerts;
    if severities != [] {
      SumCountsSnoc(severities[..|severities| - 1], alerts, e);
    }
  }

  lemma {:induction false} SumCountsNone(severities: seq<string>)
    ensures SumCounts(severities, []) == 0
  {
    if severities != [] {
      SumCountsNone(severities[..|severities| - 1]);
    }
  }

  lemma {:induction false} SumCountsIsActive(severities: seq<string>, alerts: seq<AlertEntry>)
    requires NoDup(severities)
    requires forall i :: 0 <= i < |alerts| && IsActive(alerts[i].state) ==> alerts[i].severity in severities
    ensures SumCounts(severities, alerts) == CountActive(alerts)
  {
    if alerts == [] {
      SumCountsNone(severities);
    } else {
      var n := |alerts| - 1;
      assert alerts == alerts[..n] + [alerts[n]];
      SumCountsIsActive(severities, alerts[..n]);
      SumCountsSnoc(severities, alerts[..n], alerts[n]);
    }
  }

  lemma {:induction false} ActiveIsCounted(alerts: seq<AlertEntry>, i: nat)
    requires i < |alerts| && IsActive(alerts[i].state)
    ensures CountOf(alerts, alerts[i].severity) > 0
  {
    if i < |alerts| - 1 {
      ActiveIsCounted(alerts[..|alerts| - 1], i);
    }
  }

  /** The emitted values add up to the number of active alerts, whatever their severities. */
  lemma AlertsConserved(a: string, clusterId: string, severities: seq<string>, alerts: seq<AlertEntry>)
    requires SeverityOrder(severities, alerts)
    ensures SumValues(Gauges(a, clusterId, severities, alerts)) == CountActive(alerts) as real
  {
    forall i: nat | i < |alerts| && IsActive(alerts[i].state)
      ensures alerts[i].severity in severities
    {
      ActiveIsCounted(alerts, i);
    }
    SumCountsIsActive(severities, alerts);
    GaugesSum(a, clusterId, severities, alerts);
  }

  /** The server's list, or nothing if some page request fails. */
  ghost function Collected(get: nat -> Reply<AlertEntry>, pageSize: nat, list: seq<AlertEntry>): seq<AlertEntry>
    requires pageSize >= 1
  {
    if forall k :: 0 <= k <= |list| / pageSize ==> !get(k * pageSize).Failed? then list else []
  }

  method FetchAlerts(get: nat -> Reply<AlertEntry>, pageSize: nat,
                     ghost list: seq<AlertEntry>) returns (alerts: seq<AlertEntry>)
    requires pageSize >= 1 && Honours(get, list, pageSize)
    ensures alerts == Collected(get, pageSize, list)
  {
    var r, _ := CollectPages(get, pageSize, list);
    alerts := if r.Ok? then r.value else [];
  }

  lemma AlertPartConserved(out: seq<Sample>, a: string, clusterId: string, alerts: seq<AlertEntry>)
    requires IsAlertPart(out, a, clusterId, alerts)
    ensures SumValues(out) == CountActive(alerts) as real
  {
    var severities :| SeverityOrder(severities, alerts) && out == Gauges(a, clusterId, severities, alerts);
    AlertsConserved(a, clusterId, severities, alerts);
  }

  /** From the server's list to the gauges: every active alert on every page is counted, and a
      failing page costs all of them rather than some. */
  method AlertGauges(a: string, t: Topology, get: nat -> Reply<AlertEntry>, pageSize: nat, ghost list: seq<AlertEntry>)
    returns (out: seq<Sample>)
    requires pageSize >= 1 && Honours(get, list, pageSize)
    ensures IsAlertPart(out, a, t.ClusterId(), Collected(get, pageSize, list))
    ensures SumValues(out) == CountActive(Collected(get, pageSize, list)) as real
  {
    var alerts := FetchAlerts(get, pageSize, list);
    out := DeriveAlerts(a, t.(alerts := alerts));
    AlertPartConserved(out, a, t.ClusterId(), alerts);
  }

  // ---------------------------------------------------------------- what the gauges say

  function Lowered(s: string): string
  {
    seq(|s|, i requires 0 <= i < |s| => if 'A' <= s[i] <= 'Z' then s[i] - 'A' + 'a' else s[i])
  }

  lemma ActiveIffFolded(state: string)
    ensures IsActive(state) <==> Lowered(state) == "active"
  {
    var low := Lowered(state);
    if IsActive(state) {
      assert |low| == 6 && Upper(state[0]) == 'A' && Upper(state[1]) == 'C' && Upper(state[2]) == 'T';
      assert Upper(state[3]) == 'I' && Upper(state[4]) == 'V' && Upper(state[5]) == 'E';
      assert low == ['a', 'c', 't', 'i', 'v', 'e'];
    }
    if low == "active" {
      assert |state| == 6 && low[0] == 'a' && low[1] == 'c' && low[2] == 't';
      assert low[3] == 'i' && low[4] == 'v' && low[5] == 'e';
    }
  }

  /** The active alerts of one severity, whatever the case their state is written in. */
  function ActiveOnes(alerts: seq<AlertEntry>, severity: string): set<int>
  {
    set i | 0 <= i < |alerts| && Lowered(alerts[i].state) == "active" && alerts[i].severity == severity
  }

  lemma {:induction false} CountIsNumber(alerts: seq<AlertEntry>, severity: string)
    ensures CountOf(alerts, severity) == |ActiveOnes(alerts, severity)|
  {
    if alerts != [] {
      var n := |alerts| - 1;
      CountIsNumber(alerts[..n], severity);
      ActiveIffFolded(alerts[n].state);
      if IsActive(alerts[n].state) && alerts[n].severity == severity {
        assert ActiveOnes(alerts, severity) == ActiveOnes(alerts[..n], severity) + {n};
      } else {
        assert ActiveOnes(alerts, severity) == ActiveOnes(alerts[..n], severity);
      }
    }
  }

  lemma {:induction false} GaugesAt(a: string, clusterId: string, severities: seq<string>, alerts: seq<AlertEntry>,
                                    k: nat)
    requires k < |severities|
    ensures Gauges(a, clusterId, severities, alerts)[k] ==
      Gauge(a, clusterId, severities[k], CountOf(alerts, severities[k]))
  {
    var n := |severities| - 1;
    if k < n {
      GaugesAt(a, clusterId, severities[..n], alerts, k);
    }
  }

  /** A gauge that says how many alerts of this severity are active. */
  predicate SaysActive(s: Sample, a: string, clusterId: string, severity: string, n: nat)
  {
    && s.name == "powerstore_alert_" + "active" && s.value == n as real
    && LabelValues(s.labels) == [a, clusterId, severity]
  }

  predicate AlwaysShown(severity: string)
  {
    severity == "Critical" || severity == "Major" || severity == "Minor" || severity == "Info" || severity == "None"
  }

  /** One gauge for each documented severity and each other one with an active alert, and no gauge besides: it says
      how many alerts of that severity are active. */
  lemma AlertsAreCounted(out: seq<Sample>, a: string, clusterId: string, alerts: seq<AlertEntry>, severity: string)
    requires IsAlertPart(out, a, clusterId, alerts)
    ensures var n := |ActiveOnes(alerts, severity)|;
      if AlwaysShown(severity) || n > 0 then
        exists k :: 0 <= k < |out| && SaysActive(out[k], a, clusterId, severity, n) &&
          forall j :: 0 <= j < |out| && j != k ==> LabelValues(out[j].labels) != LabelValues(out[k].labels)
      else
        forall k :: 0 <= k < |out| ==> LabelValues(out[k].labels) != [a, clusterId, severity]
  {
    var severities :| SeverityOrder(severities, alerts) && out == Gauges(a, clusterId, severities, alerts);
    CountIsNumber(alerts, severity);
    KnownOnes(severity);
    forall k | 0 <= k < |out|
      ensures out[k] == Gauge(a, clusterId, severities[k], CountOf(alerts, severities[k]))
      ensures LabelValues(out[k].labels) == [a, clusterId, severities[k]]
    {
      GaugesAt(a, clusterId, severities, alerts, k);
    }
    if severity in severities {
      var k :| 0 <= k < |severities| && severities[k] == severity;
      OneLabelled(out, a, clusterId, severities, k);
      assert SaysActive(out[k], a, clusterId, severity, |ActiveOnes(alerts, severity)|);
    } else {
      forall k | 0 <= k < |out|
        ensures LabelValues(out[k].labels) != [a, clusterId, severity]
      {
        assert severities[k] in severities && [a, clusterId, severities[k]][2] == severities[k];
        assert [a, clusterId, severity][2] == severity;
      }
    }
  }

  lemma KnownOnes(severity: string)
    ensures severity in KNOWN <==> AlwaysShown(severity)
  {
  }

  lemma OneLabelled(out: seq<Sample>, a: string, clusterId: string, severities: seq<string>, k: nat)
    requires NoDup(severities) && |out| == |severities| && k < |out|
    requires forall j :: 0 <= j < |out| ==> LabelValues(out[j].labels) == [a, clusterId, severities[j]]
    ensures forall j :: 0 <= j < |out| && j != k ==> LabelValues(out[j].labels) != LabelValues(out[k].labels)
  {
    forall j | 0 <= j < |out| && j != k
      ensures LabelValues(out[j].labels) != LabelValues(out[k].labels)
    {
      assert [a, clusterId, severities[j]][2] != [a, clusterId, severities[k]][2];
    }
  }
}
