/** Replication sessions, rules and transfers (derive_replication.go and client.go). */
module Replication {
  import opened Prelude
  import opened Metrics
  import opened Topologies
  import opened Fanout

  datatype Session = Session(
    id: string, state: string, role: string, sessionType: string, resourceType: string, localResourceId: string,
    remoteSystemId: string)

  datatype Rpo =
    | Zero | FiveMinutes | FifteenMinutes | ThirtyMinutes | OneHour | SixHours | TwelveHours | OneDay | Unknown

  datatype Rule = Rule(id: string, rpo: Rpo, remoteSystemId: string)

  datatype Transfer = Transfer(mirrorBandwidth: real, dataRemaining: real)

  function RpoSeconds(rpo: Rpo): Option<real>
  {
    match rpo
    case Zero => Some(0.0)
    case FiveMinutes => Some(300.0)
    case FifteenMinutes => Some(900.0)
    case ThirtyMinutes => Some(1800.0)
    case OneHour => Some(3600.0)
    case SixHours => Some(21600.0)
    case TwelveHours => Some(43200.0)
    case OneDay => Some(86400.0)
    case Unknown => None
  }

  // ---------------------------------------------------------------- which volumes to ask about

  predicate Wanted(s: Session)
  {
    s.resourceType == "volume" && s.localResourceId != ""
  }

  predicate WantedBySome(sessions: seq<Session>, id: string)
  {
    exists i :: 0 <= i < |sessions| && Wanted(sessions[i]) && sessions[i].localResourceId == id
  }

  /** The wanted ids, each where it first occurs. */
  function FirstIds(sessions: seq<Session>): (ids: seq<string>)
    ensures NoDup(ids)
    ensures forall id :: id in ids <==> WantedBySome(sessions, id)
  {
    if sessions == [] then []
    else
      var n := |sessions| - 1;
      var rest := FirstIds(sessions[..n]);
      if !Wanted(sessions[n]) || sessions[n].localResourceId in rest then rest else rest + [sessions[n].localResourceId]
  }

  /** Session i is the first one wanted for this id. */
  predicate FirstAt(sessions: seq<Session>, id: string, i: int)
  {
    && 0 <= i < |sessions| && Wanted(sessions[i]) && sessions[i].localResourceId == id
    && forall j :: 0 <= j < i && Wanted(sessions[j]) ==> sessions[j].localResourceId != id
  }

  lemma FirstAtPrefix(sessions: seq<Session>, n: nat, id: string, i: int)
    requires n <= |sessions|
    ensures FirstAt(sessions[..n], id, i) <==> FirstAt(sessions, id, i) && i < n
  {
  }

  /** The ids keep the order in which their first sessions come. */
  lemma {:induction false} IdsInFirstOrder(sessions: seq<Session>, p: nat, q: nat, i: int, j: int)
    requires p < q < |FirstIds(sessions)|
    requires FirstAt(sessions, FirstIds(sessions)[p], i) && FirstAt(sessions, FirstIds(sessions)[q], j)
    ensures i < j
  {
    var n := |sessions| - 1;
    var rest := FirstIds(sessions[..n]);
    var ids := FirstIds(sessions);
    FirstAtPrefix(sessions, n, ids[p], i);
    FirstAtPrefix(sessions, n, ids[q], j);
    if q < |rest| {
      assert ids[p] in rest && ids[q] in rest;
      IdsInFirstOrder(sessions[..n], p, q, i, j);
    } else {
      assert ids[p] in rest && ids[q] !in rest;
    }
  }

  method ReplicatedVolumeResources(sessions: seq<Session>) returns (ids: seq<string>)
    ensures ids == FirstIds(sessions)
  {
    ids := [];
    var seen: set<string> := {};
    for i := 0 to |sessions|
      invariant ids == FirstIds(sessions[..i]) && seen == Elems(ids)
    {
      assert sessions[..i + 1][..i] == sessions[..i];
      var s := sessions[i];
      assert s.localResourceId in seen <==> s.localResourceId in ids;
      if s.resourceType != "volume" || s.localResourceId == "" {
        continue;
      }
      if s.localResourceId in seen {
        continue;
      }
      assert Elems(ids + [s.localResourceId]) == Elems(ids) + {s.localResourceId};
      seen := seen + {s.localResourceId};
      ids := ids + [s.localResourceId];
    }
    assert sessions[..|sessions|] == sessions;
  }

  // ---------------------------------------------------------------- transfers

  /** The mirror transfer query of one volume; a failed query, not found or not, answers nothing. */
  type Rates = string -> Option<seq<Transfer>>

  function DeriveTransfer(a: string, t: Topology, resourceId: string, resourceType: string,
                          transfers: seq<Transfer>): seq<Sample>
  {
    if transfers == [] then []
    else
      var latest := transfers[|transfers| - 1];
      var name := t.ResourceName(resourceType, resourceId);
      var labels := ReplicationResourceLabels(a, t.ClusterId(), resourceId, name, resourceType);
      [Sample(REPLICATION_TRANSFER + "rate_bytes_per_second", labels, latest.mirrorBandwidth),
       Sample(REPLICATION_BACKLOG + "remaining_bytes", labels, latest.dataRemaining)]
  }

  function TransferFn(a: string, t: Topology, rates: Rates): string -> seq<Sample>
  {
    id => if rates(id).Some? then DeriveTransfer(a, t, id, "volume", rates(id).value) else []
  }

  /** No two samples would be one series. */
  predicate DistinctSeries(samples: seq<Sample>)
  {
    forall i, j :: 0 <= i < j < |samples| ==>
      samples[i].name != samples[j].name || samples[i].labels != samples[j].labels
  }

  predicate AboutResources(samples: seq<Sample>, ids: seq<string>)
  {
    forall i :: 0 <= i < |samples| ==> |samples[i].labels| > 2 && samples[i].labels[2].value in ids
  }

  lemma OneTransfer(a: string, t: Topology, rates: Rates, id: string)
    ensures AboutResources(TransferFn(a, t, rates)(id), [id])
    ensures DistinctSeries(TransferFn(a, t, rates)(id))
  {
    if rates(id).Some? && rates(id).value != [] {
      var out := DeriveTransfer(a, t, id, "volume", rates(id).value);
      assert TransferFn(a, t, rates)(id) == out;
      assert |out| == 2 && out[0].name[23] == 't' && out[1].name[23] == 'd';
      assert ReplicationResourceLabels(a, t.ClusterId(), id, t.ResourceName("volume", id),
                                       "volume")[2] == Label("resource_id", id);
    }
  }

  lemma {:induction false} TransfersDistinct(a: string, t: Topology, rates: Rates, ids: seq<string>)
    requires NoDup(ids)
    ensures DistinctSeries(MapConcat(ids, TransferFn(a, t, rates)))
    ensures AboutResources(MapConcat(ids, TransferFn(a, t, rates)), ids)
  {
    if ids != [] {
      var n := |ids| - 1;
      TransfersDistinct(a, t, rates, ids[..n]);
      OneTransfer(a, t, rates, ids[n]);
      var rest, mine := MapConcat(ids[..n], TransferFn(a, t, rates)), TransferFn(a, t, rates)(ids[n]);
      assert ids[n] !in ids[..n];
      forall i, j | 0 <= i < |rest| && 0 <= j < |mine|
        ensures rest[i].labels != mine[j].labels
      {
        assert rest[i].labels[2].value in ids[..n] && mine[j].labels[2].value in [ids[n]];
      }
    }
  }

  /** Whatever the sessions, the transfers of each replicated volume appear at most once. */
  lemma TransfersNeverCollide(a: string, t: Topology, rates: Rates, sessions: seq<Session>)
    ensures DistinctSeries(MapConcat(FirstIds(sessions), TransferFn(a, t, rates)))
  {
    TransfersDistinct(a, t, rates, FirstIds(sessions));
  }

  // ---------------------------------------------------------------- sessions, rules, and all together

  function SessionSamples(a: string, t: Topology, s: Session): seq<Sample>
  {
    if s.id == "" then []
    else
      [Sample(REPLICATION_SESSION + "state",
              ReplicationSessionLabels(a, t.ClusterId(), s.id, s.localResourceId,
                                       t.ResourceName(s.resourceType, s.localResourceId), s.resourceType,
                                       s.role, s.sessionType, s.remoteSystemId, s.state), 1.0)]
  }

  function SessionFn(a: string, t: Topology): Session -> seq<Sample>
  {
    s => SessionSamples(a, t, s)
  }

  function RuleSamples(a: string, t: Topology, r: Rule): seq<Sample>
  {
    match RpoSeconds(r.rpo)
    case None => []
    case Some(seconds) =>
      [Sample(REPLICATION_RULE + "seconds", ReplicationRuleLabels(a, t.ClusterId(), r.id, r.remoteSystemId), seconds)]
  }

  function RuleFn(a: string, t: Topology): Rule -> seq<Sample>
  {
    r => RuleSamples(a, t, r)
  }

  method DeriveReplicationSessions(a: string, t: Topology, sessions: seq<Session>) returns (out: seq<Sample>)
    ensures out == MapConcat(sessions, SessionFn(a, t))
  {
    out := [];
    for i := 0 to |sessions|
      invariant out == MapConcat(sessions[..i], SessionFn(a, t))
    {
      assert sessions[..i + 1][..i] == sessions[..i];
      var s := sessions[i];
      if s.id == "" {
        continue;
      }
      var name := t.ResourceName(s.resourceType, s.localResourceId);
      var labels := ReplicationSessionLabels(a, t.ClusterId(), s.id, s.localResourceId, name,
                                             s.resourceType, s.role, s.sessionType, s.remoteSystemId, s.state);
      out := out + [Sample(REPLICATION_SESSION + "state", labels, 1.0)];
    }
    assert sessions[..|sessions|] == sessions;
  }

  method DeriveReplicationRules(a: string, t: Topology, rules: seq<Rule>) returns (out: seq<Sample>)
    ensures out == MapConcat(rules, RuleFn(a, t))
  {
    out := [];
    for i := 0 to |rules|
      invariant out == MapConcat(rules[..i], RuleFn(a, t))
    {
      assert rules[..i + 1][..i] == rules[..i];
      var seconds := RpoSeconds(rules[i].rpo);
      if seconds.None? {
        continue;
      }
      out := out + [Sample(REPLICATION_RULE + "seconds",
                           ReplicationRuleLabels(a, t.ClusterId(), rules[i].id,
                                                 rules[i].remoteSystemId), seconds.value)];
    }
    assert rules[..|rules|] == rules;
  }

  /** A failed rule query costs the rules, a failed session query the sessions and the transfers. */
  function ReplicationSamples(a: string, t: Topology, rules: Option<seq<Rule>>, sessions: Option<seq<Session>>,
                              rates: Rates): seq<Sample>
  {
    (if rules.Some? then MapConcat(rules.value, RuleFn(a, t)) else []) +
    (if sessions.Some? then MapConcat(sessions.value, SessionFn(a, t)) else []) +
    (if sessions.Some? then MapConcat(FirstIds(sessions.value), TransferFn(a, t, rates)) else [])
  }

  method ReplicationMetrics(a: string, t: Topology, limit: nat, rules: Option<seq<Rule>>,
                            sessions: Option<seq<Session>>, rates: Rates)
    returns (samples: seq<Sample>)
    requires limit >= 1
    ensures samples == ReplicationSamples(a, t, rules, sessions, rates)
  {
    samples := [];
    if rules.Some? {
      samples := DeriveReplicationRules(a, t, rules.value);
    }
    if sessions.None? {
      return;
    }
    var states := DeriveReplicationSessions(a, t, sessions.value);
    var ids := ReplicatedVolumeResources(sessions.value);
    var transfers := ParallelSamples(ids, limit, TransferFn(a, t, rates));
    samples := samples + states + transfers;
  }

  // ---------------------------------------------------------------- what the samples say

  /** The recovery point objectives in seconds; an unknown one has none. */
  lemma RpoInSeconds()
    ensures RpoSeconds(Zero) == Some(0.0)
    ensures RpoSeconds(FiveMinutes) == Some(5.0 * 60.0) && RpoSeconds(FifteenMinutes) == Some(15.0 * 60.0)
    ensures RpoSeconds(ThirtyMinutes) == Some(30.0 * 60.0) && RpoSeconds(OneHour) == Some(60.0 * 60.0)
    ensures RpoSeconds(SixHours) == Some(6.0 * 60.0 * 60.0) && RpoSeconds(TwelveHours) == Some(12.0 * 60.0 * 60.0)
    ensures RpoSeconds(OneDay) == Some(24.0 * 60.0 * 60.0) && RpoSeconds(Unknown) == None
  {
  }

  predicate RuleTold(x: Sample, a: string, t: Topology, r: Rule)
  {
    && x.name == "powerstore_replication_rpo_" + "seconds" && RpoSeconds(r.rpo) == Some(x.value)
    && LabelNames(x.labels) == ["array", "cluster_id", "rule_id", "remote_system_id"]
    && LabelValues(x.labels) == [a, t.ClusterId(), r.id, r.remoteSystemId]
  }

  predicate SessionTold(x: Sample, a: string, t: Topology, s: Session)
  {
    && s.id != "" && x.name == "powerstore_replication_session_" + "state" && x.value == 1.0
    && LabelNames(x.labels) == ["array", "cluster_id", "session_id", "local_resource_id", "local_resource_name",
                                "resource_type", "role", "type", "remote_system_id", "state"]
    && LabelValues(x.labels) == [a, t.ClusterId(), s.id, s.localResourceId,
                                 t.ResourceName(s.resourceType, s.localResourceId), s.resourceType, s.role,
                                 s.sessionType, s.remoteSystemId, s.state]
  }

  /** Rate and backlog of the newest answer about the volume. */
  predicate TransferTold(x: Sample, a: string, t: Topology, id: string, answer: Option<seq<Transfer>>)
  {
    && answer.Some? && answer.value != []
    && (var newest := answer.value[|answer.value| - 1];
        || (x.name == "powerstore_replication_transfer_" + "rate_bytes_per_second" && x.value == newest.mirrorBandwidth)
        || (x.name == "powerstore_replication_data_" + "remaining_bytes" && x.value == newest.dataRemaining))
    && LabelNames(x.labels) == ["array", "cluster_id", "resource_id", "resource_name", "resource_type"]
    && LabelValues(x.labels) == [a, t.ClusterId(), id, t.ResourceName("volume", id), "volume"]
  }

  lemma RuleIff(a: string, t: Topology, r: Rule, x: Sample)
    ensures x in RuleSamples(a, t, r) <==> RuleTold(x, a, t, r)
  {
    if RuleTold(x, a, t, r) {
      SameLabels(x.labels, ReplicationRuleLabels(a, t.ClusterId(), r.id, r.remoteSystemId));
    }
  }

  lemma SessionIff(a: string, t: Topology, s: Session, x: Sample)
    ensures x in SessionSamples(a, t, s) <==> SessionTold(x, a, t, s)
  {
    if SessionTold(x, a, t, s) {
      SameLabels(x.labels,
                 ReplicationSessionLabels(a, t.ClusterId(), s.id, s.localResourceId,
                                          t.ResourceName(s.resourceType, s.localResourceId), s.resourceType, s.role,
                                          s.sessionType, s.remoteSystemId, s.state));
    }
  }

  lemma TransferIff(a: string, t: Topology, rates: Rates, id: string, x: Sample)
    ensures x in TransferFn(a, t, rates)(id) <==> TransferTold(x, a, t, id, rates(id))
  {
    if TransferTold(x, a, t, id, rates(id)) {
      SameLabels(x.labels, ReplicationResourceLabels(a, t.ClusterId(), id, t.ResourceName("volume", id), "volume"));
    }
  }

  function Answered<T>(list: Option<seq<T>>): seq<T>
  {
    match list
    case None => []
    case Some(items) => items
  }

  /** The samples are exactly those of the known rules, of the sessions with an id, and of the newest transfer
      answer about each volume that some session replicates; a query that failed answers nothing. */
  lemma ReplicationIsTold(a: string, t: Topology, rules: Option<seq<Rule>>, sessions: Option<seq<Session>>,
                          rates: Rates, x: Sample)
    ensures var rs, ss := Answered(rules), Answered(sessions);
      x in ReplicationSamples(a, t, rules, sessions, rates) <==>
      || (exists i :: 0 <= i < |rs| && RuleTold(x, a, t, rs[i]))
      || (exists i :: 0 <= i < |ss| && SessionTold(x, a, t, ss[i]))
      || (exists i :: 0 <= i < |ss| && Wanted(ss[i]) &&
            TransferTold(x, a, t, ss[i].localResourceId, rates(ss[i].localResourceId)))
  {
    var rs, ss := Answered(rules), Answered(sessions);
    MapConcatHas(rs, RuleFn(a, t), x);
    MapConcatHas(ss, SessionFn(a, t), x);
    forall i | 0 <= i < |rs|
      ensures x in RuleFn(a, t)(rs[i]) <==> RuleTold(x, a, t, rs[i])
    {
      RuleIff(a, t, rs[i], x);
    }
    forall i | 0 <= i < |ss|
      ensures x in SessionFn(a, t)(ss[i]) <==> SessionTold(x, a, t, ss[i])
    {
      SessionIff(a, t, ss[i], x);
    }
    TransfersAreTold(a, t, ss, rates, x);
  }

  lemma TransfersAreTold(a: string, t: Topology, sessions: seq<Session>, rates: Rates, x: Sample)
    ensures x in MapConcat(FirstIds(sessions), TransferFn(a, t, rates)) <==>
      exists i :: 0 <= i < |sessions| && Wanted(sessions[i]) &&
        TransferTold(x, a, t, sessions[i].localResourceId, rates(sessions[i].localResourceId))
  {
    var ids := FirstIds(sessions);
    MapConcatHas(ids, TransferFn(a, t, rates), x);
    forall id
      ensures x in TransferFn(a, t, rates)(id) <==> TransferTold(x, a, t, id, rates(id))
    {
      TransferIff(a, t, rates, id, x);
    }
    if k :| 0 <= k < |ids| && x in TransferFn(a, t, rates)(ids[k]) {
      assert ids[k] in ids && WantedBySome(sessions, ids[k]);
    }
    if i :| 0 <= i < |sessions| && Wanted(sessions[i]) &&
            TransferTold(x, a, t, sessions[i].localResourceId, rates(sessions[i].localResourceId)) {
      assert WantedBySome(sessions, sessions[i].localResourceId) && sessions[i].localResourceId in ids;
    }
  }
}
