/** What the pull path exposes: never one series twice, and each label tuple once exactly when
    the NUL-joined signatures tell the tuples apart. */
module PullProofs {
  import opened Metrics
  import opened Pull

  predicate Named(samples: seq<Sample>, name: string)
  {
    forall i :: 0 <= i < |samples| ==> samples[i].name == name
  }

  /** No label tuple occurs twice. */
  predicate DistinctTuples(out: seq<Metric>)
  {
    forall i, j :: 0 <= i < |out| && 0 <= j < |out| && i != j ==> out[i].values != out[j].values
  }

  lemma DistinctSnoc(out: seq<Metric>, last: Metric)
    requires DistinctTuples(out) && forall m :: m in out ==> m.values != last.values
    ensures DistinctTuples(out + [last])
  {
    assert forall i :: 0 <= i < |out| ==> out[i] in out;
  }

  predicate UniformArity(samples: seq<Sample>)
  {
    forall i :: 0 <= i < |samples| ==> |samples[i].labels| == |samples[0].labels|
  }

  predicate DistinctSignatures(samples: seq<Sample>)
  {
    forall i, j :: 0 <= i < j < |samples| ==> Signature(samples[i]) != Signature(samples[j])
  }

  /** Samples with the same signature have the same label values. */
  predicate Faithful(samples: seq<Sample>)
  {
    forall i, j :: 0 <= i < |samples| && 0 <= j < |samples| && Signature(samples[i]) == Signature(samples[j]) ==>
      LabelValues(samples[i].labels) == LabelValues(samples[j].labels)
  }

  lemma SignatureIn(samples: seq<Sample>, i: nat)
    requires i < |samples|
    ensures Signature(samples[i]) in Signatures(samples)
  {
  }

  lemma {:induction false} FirstsKeepSignatures(samples: seq<Sample>)
    ensures Signatures(FirstsOf(samples)) == Signatures(samples)
    ensures DistinctSignatures(FirstsOf(samples))
  {
    if samples != [] {
      var n := |samples| - 1;
      FirstsKeepSignatures(samples[..n]);
      FirstsSnoc(samples, n);
      assert samples[..n + 1] == samples;
      var firsts := FirstsOf(samples[..n]);
      if Signature(samples[n]) !in Signatures(samples[..n]) {
        assert FirstsOf(samples) == firsts + [samples[n]];
        SignaturesSnoc(firsts, samples[n]);
      } else {
        assert FirstsOf(samples) == firsts;
        assert Signatures(samples) == Signatures(samples[..n]);
      }
    }
  }

  lemma SignaturesSnoc(samples: seq<Sample>, s: Sample)
    ensures Signatures(samples + [s]) == Signatures(samples) + {Signature(s)}
    ensures DistinctSignatures(samples) && Signature(s) !in Signatures(samples) ==> DistinctSignatures(samples + [s])
  {
    var t := samples + [s];
    assert forall i :: 0 <= i < |samples| ==> t[i] == samples[i];
    assert t[|samples|] == s;
    forall x | x in Signatures(samples) + {Signature(s)}
      ensures x in Signatures(t)
    {
      if x in Signatures(samples) {
        var i :| 0 <= i < |samples| && x == Signature(samples[i]);
        SignatureIn(t, i);
      } else {
        SignatureIn(t, |samples|);
      }
    }
  }

  /** The sample at position i is the first one with its signature. */
  predicate IsFirst(samples: seq<Sample>, i: nat)
    requires i < |samples|
  {
    forall j :: 0 <= j < i ==> Signature(samples[j]) != Signature(samples[i])
  }

  lemma {:induction false} FirstsAreFirst(samples: seq<Sample>, k: nat) returns (i: nat)
    requires k < |FirstsOf(samples)|
    ensures i < |samples| && samples[i] == FirstsOf(samples)[k] && IsFirst(samples, i)
  {
    var n := |samples| - 1;
    if k < |FirstsOf(samples[..n])| {
      i := FirstsAreFirst(samples[..n], k);
      assert IsFirst(samples, i);
    } else {
      i := n;
      forall j: nat | j < n
        ensures Signature(samples[j]) != Signature(samples[n])
      {
        SignatureIn(samples[..n], j);
      }
    }
  }

  /** With one arity each kept sample becomes one metric, position by position. */
  lemma {:induction false} ConstMetricsAt(labelNames: seq<string>, samples: seq<Sample>)
    requires forall i :: 0 <= i < |samples| ==> |samples[i].labels| == |labelNames|
    ensures |ConstMetrics(labelNames, samples)| == |samples|
    ensures forall i :: 0 <= i < |samples| ==> ConstMetrics(labelNames, samples)[i] == AsMetric(labelNames, samples[i])
  {
    if samples != [] {
      ConstMetricsAt(labelNames, samples[..|samples| - 1]);
    }
  }

  lemma EmittedAt(samples: seq<Sample>)
    requires UniformArity(samples)
    ensures |Emitted(samples)| == |FirstsOf(samples)|
    ensures samples != [] ==> forall i :: 0 <= i < |FirstsOf(samples)| ==>
      Emitted(samples)[i] == AsMetric(LabelNames(samples[0].labels), FirstsOf(samples)[i])
  {
    if samples != [] {
      var firsts := FirstsOf(samples);
      forall k: nat | k < |firsts|
        ensures |firsts[k].labels| == |LabelNames(samples[0].labels)|
      {
        var i := FirstsAreFirst(samples, k);
      }
      ConstMetricsAt(LabelNames(samples[0].labels), firsts);
    }
  }

  predicate TupleEmitted(samples: seq<Sample>, values: seq<string>)
  {
    exists k :: 0 <= k < |Emitted(samples)| && Emitted(samples)[k].values == values
  }

  lemma SameTupleSameSignature(s: Sample, t: Sample)
    requires s.name == t.name && LabelValues(s.labels) == LabelValues(t.labels)
    ensures Signature(s) == Signature(t)
  {
  }

  /** The kept sample whose signature is that of samples[i]. */
  lemma Keeper(samples: seq<Sample>, i: nat) returns (k: nat)
    requires i < |samples|
    ensures k < |FirstsOf(samples)| && Signature(FirstsOf(samples)[k]) == Signature(samples[i])
  {
    FirstsKeepSignatures(samples);
    SignatureIn(samples, i);
    var firsts := FirstsOf(samples);
    var j :| 0 <= j < |firsts| && Signature(samples[i]) == Signature(firsts[j]);
    k := j;
  }

  lemma FaithfulEmits(samples: seq<Sample>, i: nat)
    requires UniformArity(samples) && Faithful(samples) && i < |samples|
    ensures TupleEmitted(samples, LabelValues(samples[i].labels))
  {
    EmittedAt(samples);
    var k := Keeper(samples, i);
    var f := FirstsAreFirst(samples, k);
    assert Emitted(samples)[k].values == LabelValues(samples[i].labels);
  }

  lemma EmittedKeeper(samples: seq<Sample>, name: string, i: nat) returns (k: nat)
    requires Named(samples, name) && UniformArity(samples) && i < |samples|
    requires TupleEmitted(samples, LabelValues(samples[i].labels))
    ensures k < |FirstsOf(samples)| && LabelValues(FirstsOf(samples)[k].labels) == LabelValues(samples[i].labels)
    ensures Signature(FirstsOf(samples)[k]) == Signature(samples[i])
  {
    EmittedAt(samples);
    var j :| 0 <= j < |Emitted(samples)| && Emitted(samples)[j].values == LabelValues(samples[i].labels);
    k := j;
    var f := FirstsAreFirst(samples, k);
    SameTupleSameSignature(samples[f], samples[i]);
  }

  predicate AllTuplesEmitted(samples: seq<Sample>)
  {
    forall i :: 0 <= i < |samples| ==> TupleEmitted(samples, LabelValues(samples[i].labels))
  }

  lemma EmittedFaithful(samples: seq<Sample>, name: string, i: nat, j: nat)
    requires Named(samples, name) && UniformArity(samples) && AllTuplesEmitted(samples)
    requires i < |samples| && j < |samples| && Signature(samples[i]) == Signature(samples[j])
    ensures LabelValues(samples[i].labels) == LabelValues(samples[j].labels)
  {
    var a := EmittedKeeper(samples, name, i);
    var b := EmittedKeeper(samples, name, j);
    FirstsKeepSignatures(samples);
    assert a == b;
  }

  /** Every label tuple that occurs is emitted if and only if no two different tuples share a signature. */
  lemma AllTuplesEmittedIff(samples: seq<Sample>, name: string)
    requires Named(samples, name) && UniformArity(samples)
    ensures AllTuplesEmitted(samples) <==> Faithful(samples)
  {
    if Faithful(samples) {
      forall i: nat | i < |samples|
        ensures TupleEmitted(samples, LabelValues(samples[i].labels))
      {
        FaithfulEmits(samples, i);
      }
    }
    if AllTuplesEmitted(samples) {
      forall i: nat, j: nat | i < |samples| && j < |samples| && Signature(samples[i]) == Signature(samples[j])
        ensures LabelValues(samples[i].labels) == LabelValues(samples[j].labels)
      {
        EmittedFaithful(samples, name, i, j);
      }
    }
  }

  /** An emitted tuple carries the value of the first sample that has it, and is emitted once. */
  lemma FirstSampleWins(samples: seq<Sample>, name: string, i: nat, k: nat)
    requires Named(samples, name) && UniformArity(samples)
    requires i < |samples| && k < |Emitted(samples)| && Emitted(samples)[k].values == LabelValues(samples[i].labels)
    requires forall j :: 0 <= j < i ==> LabelValues(samples[j].labels) != LabelValues(samples[i].labels)
    ensures Emitted(samples)[k].value == samples[i].value
    ensures forall j :: 0 <= j < |Emitted(samples)| && j != k ==>
      Emitted(samples)[j].values != Emitted(samples)[k].values
  {
    EmittedAt(samples);
    var f := FirstsAreFirst(samples, k);
    SameTupleSameSignature(samples[f], samples[i]);
    NoTupleTwice(samples, name);
    assert f == i;
  }

  /** Whatever the labels look like, one metric name never exposes a label tuple twice. */
  lemma NoTupleTwice(samples: seq<Sample>, name: string)
    requires Named(samples, name)
    ensures DistinctTuples(Emitted(samples))
  {
    if samples != [] {
      FirstsKeepSignatures(samples);
      forall k: nat | k < |FirstsOf(samples)|
        ensures FirstsOf(samples)[k].name == name
      {
        var i := FirstsAreFirst(samples, k);
      }
      ConstMetricsDistinct(LabelNames(samples[0].labels), FirstsOf(samples), name);
    }
  }

  lemma DifferentSignatureDifferentTuple(s: Sample, t: Sample)
    requires s.name == t.name && Signature(s) != Signature(t)
    ensures LabelValues(s.labels) != LabelValues(t.labels)
  {
  }

  lemma {:induction false} ConstMetricsDistinct(labelNames: seq<string>, samples: seq<Sample>, name: string)
    requires Named(samples, name) && DistinctSignatures(samples)
    ensures forall m :: m in ConstMetrics(labelNames, samples) ==>
      m.name == name && exists i :: 0 <= i < |samples| && m.values == LabelValues(samples[i].labels)
    ensures DistinctTuples(ConstMetrics(labelNames, samples))
  {
    if samples != [] {
      var n := |samples| - 1;
      ConstMetricsDistinct(labelNames, samples[..n], name);
      var before := ConstMetrics(labelNames, samples[..n]);
      forall m | m in before
        ensures m.values != LabelValues(samples[n].labels)
      {
        var i :| 0 <= i < |samples[..n]| && m.values == LabelValues(samples[..n][i].labels);
        DifferentSignatureDifferentTuple(samples[i], samples[n]);
      }
      if |samples[n].labels| == |labelNames| {
        DistinctSnoc(before, AsMetric(labelNames, samples[n]));
      } else {
        assert ConstMetrics(labelNames, samples) == before;
      }
    }
  }
}
