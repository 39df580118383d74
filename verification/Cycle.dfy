/** One collection cycle (collectArray and collectAll in collector.go), and what holds of every
    snapshot it can lead to. */
module Cycle {
  import opened Prelude
  import opened Metrics
  import opened Snapshots
  import opened Pools
  import opened Pull
  import opened SignatureProofs
  import opened Push
  import opened ExportParity
  import opened Topologies

  /** What one client answers during one cycle, to the calls collectArray may make. */
  datatype Reply = Reply(
    topology: Result<Topology, string>, bulkCapable: bool, bulk: Result<seq<Sample>, string>,
    perEntity: Result<seq<Sample>, string>, scrapedAt: int)

  /** The samples of the cycle or the error: the bulk path only if the array supports it, and the
      per-entity path otherwise or when the bulk path fails. */
  function Samples(q: Reply): Result<seq<Sample>, string>
  {
    match q.topology
    case Err(e) => Err(e)
    case Ok(_) => if q.bulkCapable && q.bulk.Ok? then q.bulk else q.perEntity
  }

  /** One array's result: down with the error when its inventory or both paths fail, and otherwise up with the
      bulk samples if there are any, else with the per-entity ones. */
  function Collected(name: string, q: Reply): (r: ArraySnapshot)
    ensures r.name == name && r.lastScrape == Some(q.scrapedAt)
    ensures r.bulkCapable <==> q.topology.Ok? && q.bulkCapable
    ensures q.topology.Err? ==> !r.up && r.scrapeError == q.topology.error
    ensures q.topology.Ok? && q.bulkCapable && q.bulk.Ok? ==> r.up && r.samples == q.bulk.value
    ensures q.topology.Ok? && !(q.bulkCapable && q.bulk.Ok?) ==>
      (r.up <==> q.perEntity.Ok?) &&
      if q.perEntity.Ok? then r.samples == q.perEntity.value else r.scrapeError == q.perEntity.error
    ensures if r.up then r.scrapeError == "" else r.samples == []
  {
    var capable := q.topology.Ok? && q.bulkCapable;
    match Samples(q)
    case Ok(samples) => ArraySnapshot(name, true, capable, "", Some(q.scrapedAt), samples)
    case Err(e) => ArraySnapshot(name, false, capable, e, Some(q.scrapedAt), [])
  }

  method CollectArray(name: string, q: Reply) returns (r: ArraySnapshot)
    ensures r == Collected(name, q)
  {
    r := ArraySnapshot(name, false, false, "", Some(q.scrapedAt), []);
    if q.topology.Err? {
      r := r.(scrapeError := q.topology.error);
      return;
    }
    r := r.(bulkCapable := q.bulkCapable);
    var samples;
    if r.bulkCapable {
      samples := q.bulk;
      if samples.Err? {
        samples := q.perEntity;
      }
    } else {
      samples := q.perEntity;
    }
    if samples.Err? {
      r := r.(scrapeError := samples.error);
      return;
    }
    r := r.(samples := samples.value, up := true);
  }

  /** Result i is about client i and depends on that client's answers alone. */
  predicate ResultsOf(results: Results, pool: Pool, replies: seq<Reply>)
  {
    && |results| == |pool| == |replies|
    && forall i :: 0 <= i < |pool| ==> results[i] == Some(Collected(pool[i].name, replies[i]))
  }

  function Below(n: nat): (s: set<int>)
    ensures forall i :: i in s <==> 0 <= i < n
  {
    if n == 0 then {} else Below(n - 1) + {n - 1}
  }

  function ResultsFor(pool: Pool, replies: seq<Reply>): (results: Results)
    requires |replies| == |pool|
    ensures ResultsOf(results, pool, replies)
  {
    seq(|pool|, i requires 0 <= i < |pool| => Some(Collected(pool[i].name, replies[i])))
  }

  /** All arrays at once, finishing in any order, each into its own slot. */
  method CollectAll(pool: Pool, replies: seq<Reply>) returns (snap: Snapshot)
    requires |replies| == |pool|
    ensures IsSnapshotOf(snap, ResultsFor(pool, replies))
  {
    var slots := new Option<ArraySnapshot>[|pool|](_ => None);
    var running := Below(|pool|);
    while running != {}
      invariant forall i :: i in running ==> 0 <= i < |pool|
      invariant forall i :: 0 <= i < |pool| && i !in running ==> slots[i] == Some(Collected(pool[i].name, replies[i]))
      decreases running
    {
      var i :| i in running;
      var r := CollectArray(pool[i].name, replies[i]);
      slots[i] := Some(r);
      running := running - {i};
    }
    assert slots[..] == ResultsFor(pool, replies);
    snap := BuildSnapshot(slots[..]);
  }

  // ---------------------------------------------------------------- every snapshot is well labelled

  /** The client's samples carry their families' labels and its own array's name. */
  predicate WellLabelled(name: string, q: Reply)
  {
    Samples(q).Ok? ==> Good(Samples(q).value, name)
  }

  predicate AllWellLabelled(pool: Pool, replies: seq<Reply>)
    requires |replies| == |pool|
  {
    forall i :: 0 <= i < |pool| ==> WellLabelled(pool[i].name, replies[i])
  }

  lemma {:induction false} CycleConforms(results: Results, pool: Pool, replies: seq<Reply>)
    requires ResultsOf(results, pool, replies) && AllWellLabelled(pool, replies)
    ensures AllConform(AllSamples(results))
    ensures forall s :: s in AllSamples(results) ==>
      s.labels != [] && exists i :: 0 <= i < |pool| && s.labels[0] == Label("array", pool[i].name)
  {
    if results != [] {
      var n := |results| - 1;
      CycleConforms(results[..n], pool[..n], replies[..n]);
      assert WellLabelled(pool[n].name, replies[n]);
    }
  }

  lemma ConformingAreUniform(samples: seq<Sample>)
    requires AllConform(samples)
    ensures UniformKeys(samples)
  {
    assert forall i :: 0 <= i < |samples| ==> Conforms(samples[i]);
  }

  lemma HealthHasNoFamily(name: string)
    requires HealthName(name)
    ensures FamilyOf(name).None?
  {
    assert UP[11] == 'u' && LAST_SCRAPE[11] == 'l' && BULK_API[11] == 'a' && BULK_API[12] == 'r';
    assert APPLIANCE[12] == 'p' && ALERT[12] == 'l';
    FirstLetter(name);
    NotReplication(name);
    FindNone(PREFIXES, name);
  }

  lemma NamesAreNotHealth(snap: Snapshot, results: Results)
    requires IsSnapshotOf(snap, results) && AllConform(AllSamples(results))
    ensures forall name :: name in snap.names ==> !HealthName(name)
  {
    forall name | name in snap.names
      ensures !HealthName(name)
    {
      assert name in Elems(snap.names);
      NamedIffGathered(AllSamples(results), name);
      var s :| s in AllSamples(results) && s.name == name;
      assert Conforms(s);
      if HealthName(name) {
        HealthHasNoFamily(name);
      }
    }
  }

  /** Whatever the arrays answer, and with no condition on their label values: a scrape shows no
      series twice, and push and pull show the same samples if and only if no metric repeats a
      signature. */
  lemma EveryCycleExportsCleanly(snap: Snapshot, results: Results, pool: Pool, replies: seq<Reply>, scrape: seq<Metric>,
                                 instruments: seq<string>)
    requires ResultsOf(results, pool, replies) && AllWellLabelled(pool, replies) && IsSnapshotOf(snap, results)
    requires IsScrape(scrape, snap)
    requires NoDup(instruments) && Elems(snap.names) <= Elems(instruments)
    ensures NoSeriesTwice(scrape)
    ensures multiset(Shown(EmittedAll(snap, snap.names))) == multiset(Observed(snap, instruments))
      <==> NoRepeats(snap.names, AllSamples(results))
  {
    CycleConforms(results, pool, replies);
    ConformingAreUniform(AllSamples(results));
    NamesAreNotHealth(snap, results);
    SnapshotFiledByName(snap, results);
    CollectNeverRepeats(snap, scrape);
    PushPullAgreeIff(snap, results, instruments);
  }

  /** Two arrays with different NUL-free names never take each other's series. */
  lemma ArraysKeepTheirSeries(pool: Pool, replies: seq<Reply>, i: nat, j: nat, s: Sample, t: Sample)
    requires |replies| == |pool| && AllWellLabelled(pool, replies)
    requires i < |pool| && j < |pool| && pool[i].name != pool[j].name && NulFree(pool[i].name) && NulFree(pool[j].name)
    requires s in Collected(pool[i].name, replies[i]).samples && t in Collected(pool[j].name, replies[j]).samples
    requires s.name == t.name
    ensures Signature(s) != Signature(t)
  {
    assert WellLabelled(pool[i].name, replies[i]) && WellLabelled(pool[j].name, replies[j]);
    ArraysNeverSuppress(s, t);
  }
}
