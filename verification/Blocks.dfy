/** Eight samples per entity under one label list: the shape shared by the volume performance,
    appliance performance and appliance space derivations of both export paths. */
module Blocks {
  import opened Prelude
  import opened Metrics

  type Eight = v: seq<real> | |v| == 8 witness [0.0, 0.0, 0.0, 0.0, 0.0, 0.0, 0.0, 0.0]

  /** The names of the eight metrics, in the order they are emitted. */
  datatype EightNames = EightNames(n0: string, n1: string, n2: string, n3: string, n4: string, n5: string,
                                   n6: string, n7: string)
  {
    function At(k: nat): string
      requires k < 8
    {
      if k == 0 then n0 else if k == 1 then n1 else if k == 2 then n2 else if k == 3 then n3
      else if k == 4 then n4 else if k == 5 then n5 else if k == 6 then n6 else n7
    }

    predicate Has(name: string)
    {
      exists k :: 0 <= k < 8 && At(k) == name
    }

    predicate Distinct()
    {
      forall i, j :: 0 <= i < j < 8 ==> At(i) != At(j)
    }

    predicate AllIn(f: Family)
    {
      && FamilyOf(n0) == Some(f) && FamilyOf(n1) == Some(f) && FamilyOf(n2) == Some(f) && FamilyOf(n3) == Some(f)
      && FamilyOf(n4) == Some(f) && FamilyOf(n5) == Some(f) && FamilyOf(n6) == Some(f) && FamilyOf(n7) == Some(f)
    }
  }

  /** What one entity contributes: its labels and the values of the eight metrics. */
  datatype Block = Block(labels: seq<Label>, values: Eight)

  function Render(names: EightNames, blocks: seq<Block>): (samples: seq<Sample>)
    ensures |samples| == 8 * |blocks|
  {
    seq(8 * |blocks|, q requires 0 <= q < 8 * |blocks| =>
      Sample(names.At(q % 8), blocks[q / 8].labels, blocks[q / 8].values[q % 8]))
  }

  lemma RenderAt(names: EightNames, blocks: seq<Block>, i: nat, k: nat)
    requires i < |blocks| && k < 8
    ensures 8 * i + k < |Render(names, blocks)|
    ensures Render(names, blocks)[8 * i + k] == Sample(names.At(k), blocks[i].labels, blocks[i].values[k])
  {
    assert (8 * i + k) / 8 == i && (8 * i + k) % 8 == k;
  }

  lemma RenderConcat(names: EightNames, a: seq<Block>, b: seq<Block>)
    ensures Render(names, a + b) == Render(names, a) + Render(names, b)
  {
    forall q: nat | q < 8 * |b|
      ensures Render(names, a + b)[8 * |a| + q] == Render(names, b)[q]
    {
      assert (8 * |a| + q) / 8 == |a| + q / 8 && (8 * |a| + q) % 8 == q % 8;
    }
  }

  function RenderOne(names: EightNames, b: Block): (samples: seq<Sample>)
    ensures samples == Render(names, [b])
  {
    [Sample(names.n0, b.labels, b.values[0]), Sample(names.n1, b.labels, b.values[1]),
     Sample(names.n2, b.labels, b.values[2]), Sample(names.n3, b.labels, b.values[3]),
     Sample(names.n4, b.labels, b.values[4]), Sample(names.n5, b.labels, b.values[5]),
     Sample(names.n6, b.labels, b.values[6]), Sample(names.n7, b.labels, b.values[7])]
  }

  /** One turn of a derivation loop. */
  lemma RenderNext(names: EightNames, blocks: seq<Block>, i: nat)
    requires i < |blocks|
    ensures Render(names, blocks[..i + 1]) == Render(names, blocks[..i]) + RenderOne(names, blocks[i])
  {
    RenderConcat(names, blocks[..i], [blocks[i]]);
    assert blocks[..i + 1] == blocks[..i] + [blocks[i]];
  }

  /** The entity id stands fourth, in the volume labels as in the appliance labels. */
  predicate Tagged(blocks: seq<Block>)
  {
    forall i :: 0 <= i < |blocks| ==> |blocks[i].labels| > 3
  }

  predicate DistinctTags(blocks: seq<Block>)
    requires Tagged(blocks)
  {
    forall i, j :: 0 <= i < j < |blocks| ==> blocks[i].labels[3].value != blocks[j].labels[3].value
  }

  lemma RenderNoDup(names: EightNames, blocks: seq<Block>)
    requires names.Distinct() && Tagged(blocks) && DistinctTags(blocks)
    ensures NoDup(Render(names, blocks))
  {
    var samples := Render(names, blocks);
    forall p, q | 0 <= p < q < |samples|
      ensures samples[p] != samples[q]
    {
      if p / 8 == q / 8 {
        assert names.At(p % 8) != names.At(q % 8);
      } else {
        assert p / 8 < q / 8;
      }
    }
  }

  /** Two block lists that render into the same samples hold the same blocks. */
  lemma RenderedIn(names: EightNames, mine: seq<Block>, other: seq<Block>, i: nat) returns (j: nat)
    requires names.Distinct() && Tagged(other) && DistinctTags(other) && i < |mine|
    requires Elems(Render(names, mine)) <= Elems(Render(names, other))
    ensures j < |other| && other[j] == mine[i]
  {
    RenderAt(names, mine, i, 0);
    j := Origin(names, mine, other, i, 0);
    forall k: nat | k < 8
      ensures mine[i].values[k] == other[j].values[k]
    {
      RenderAt(names, mine, i, k);
      var also := Origin(names, mine, other, i, k);
      assert also == j;
    }
    assert mine[i].values == other[j].values;
  }

  lemma Origin(names: EightNames, mine: seq<Block>, other: seq<Block>, i: nat, k: nat) returns (j: nat)
    requires names.Distinct() && i < |mine| && k < 8
    requires Elems(Render(names, mine)) <= Elems(Render(names, other))
    ensures j < |other| && other[j].labels == mine[i].labels && other[j].values[k] == mine[i].values[k]
  {
    RenderAt(names, mine, i, k);
    assert Render(names, mine)[8 * i + k] in Elems(Render(names, mine));
    var q :| 0 <= q < |Render(names, other)| && Render(names, other)[q] == Render(names, mine)[8 * i + k];
    j := q / 8;
    assert q % 8 == k;
  }

  lemma SameElemsSameBag<T>(a: seq<T>, b: seq<T>)
    requires NoDup(a) && NoDup(b) && Elems(a) == Elems(b)
    ensures multiset(a) == multiset(b)
  {
    forall x
      ensures multiset(a)[x] == multiset(b)[x]
    {
      NoDupMultiplicity(a, x);
      NoDupMultiplicity(b, x);
      assert x in a <==> x in Elems(a);
      assert x in b <==> x in Elems(b);
    }
  }

  lemma SameBagNoDup<T>(a: seq<T>, b: seq<T>)
    requires NoDup(a) && multiset(a) == multiset(b)
    ensures NoDup(b) && Elems(a) == Elems(b)
  {
    forall x
      ensures x in a <==> x in b
      ensures multiset(b)[x] <= 1
    {
      NoDupMultiplicity(a, x);
      assert x in b <==> x in multiset(b);
    }
    MultiplicityNoDup(b);
  }

  function Tags(blocks: seq<Block>): set<string>
    requires Tagged(blocks)
  {
    set i | 0 <= i < |blocks| :: blocks[i].labels[3].value
  }

  /** Same entities, each at most once in the other list, and the same block for each. */
  predicate Corresponds(mine: seq<Block>, other: seq<Block>)
    requires Tagged(mine) && Tagged(other)
  {
    && DistinctTags(other) && Tags(mine) == Tags(other)
    && forall i, j :: 0 <= i < |mine| && 0 <= j < |other| && mine[i].labels[3].value == other[j].labels[3].value ==>
        mine[i] == other[j]
  }

  /** Samples of distinct entities can be told apart again: two renderings hold the same samples
      equally often if and only if the lists correspond entity by entity. */
  lemma RenderAgreesIff(names: EightNames, mine: seq<Block>, other: seq<Block>)
    requires names.Distinct() && Tagged(mine) && Tagged(other) && DistinctTags(mine)
    ensures multiset(Render(names, mine)) == multiset(Render(names, other)) <==> Corresponds(mine, other)
  {
    RenderNoDup(names, mine);
    if multiset(Render(names, mine)) == multiset(Render(names, other)) {
      SameBagNoDup(Render(names, mine), Render(names, other));
      RenderedDistinct(names, mine, other);
      SameBlocks(names, mine, other);
      SameElemsCorrespond(mine, other);
    }
    if Corresponds(mine, other) {
      RenderNoDup(names, other);
      CorrespondingElems(mine, other);
      ElemsRendered(names, mine, other);
      ElemsRendered(names, other, mine);
      SameElemsSameBag(Render(names, mine), Render(names, other));
    }
  }

  lemma SameElemsCorrespond(mine: seq<Block>, other: seq<Block>)
    requires Tagged(mine) && Tagged(other) && DistinctTags(mine) && DistinctTags(other) && Elems(mine) == Elems(other)
    ensures Corresponds(mine, other)
  {
    forall i: nat | i < |mine|
      ensures exists j :: 0 <= j < |other| && other[j] == mine[i]
    {
      assert mine[i] in Elems(other);
    }
    forall j: nat | j < |other|
      ensures exists i :: 0 <= i < |mine| && mine[i] == other[j]
    {
      assert other[j] in Elems(mine);
    }
  }

  lemma CorrespondingElems(mine: seq<Block>, other: seq<Block>)
    requires Tagged(mine) && Tagged(other) && Corresponds(mine, other)
    ensures Elems(mine) == Elems(other)
  {
    forall i: nat | i < |mine|
      ensures mine[i] in other
    {
      assert mine[i].labels[3].value in Tags(other);
    }
    forall j: nat | j < |other|
      ensures other[j] in mine
    {
      assert other[j].labels[3].value in Tags(mine);
    }
  }

  lemma RenderedDistinct(names: EightNames, mine: seq<Block>, other: seq<Block>)
    requires names.Distinct() && Tagged(mine) && Tagged(other) && DistinctTags(mine)
    requires NoDup(Render(names, other)) && Elems(Render(names, other)) <= Elems(Render(names, mine))
    ensures DistinctTags(other)
  {
    forall i: nat, j: nat | i < j < |other|
      ensures other[i].labels[3].value != other[j].labels[3].value
    {
      RenderAt(names, other, i, 0);
      RenderAt(names, other, j, 0);
      var a := Origin(names, other, mine, i, 0);
      var b := Origin(names, other, mine, j, 0);
      assert Render(names, other)[8 * i] != Render(names, other)[8 * j];
    }
  }

  lemma SameBlocks(names: EightNames, mine: seq<Block>, other: seq<Block>)
    requires names.Distinct() && Tagged(mine) && Tagged(other) && DistinctTags(mine) && DistinctTags(other)
    requires Elems(Render(names, mine)) == Elems(Render(names, other))
    ensures Elems(mine) == Elems(other)
  {
    forall i: nat | i < |mine|
      ensures mine[i] in other
    {
      var j := RenderedIn(names, mine, other, i);
    }
    forall i: nat | i < |other|
      ensures other[i] in mine
    {
      var j := RenderedIn(names, other, mine, i);
    }
  }

  lemma ElemsRendered(names: EightNames, mine: seq<Block>, other: seq<Block>)
    requires Elems(mine) <= Elems(other)
    ensures Elems(Render(names, mine)) <= Elems(Render(names, other))
  {
    forall q: nat | q < |Render(names, mine)|
      ensures Render(names, mine)[q] in Render(names, other)
    {
      assert mine[q / 8] in Elems(mine);
      var j :| 0 <= j < |other| && other[j] == mine[q / 8];
      RenderAt(names, other, j, q % 8);
    }
  }

  lemma RenderConforms(names: EightNames, blocks: seq<Block>, f: Family, arrayName: string)
    requires names.AllIn(f)
    requires forall i :: 0 <= i < |blocks| ==> Schema(blocks[i].labels, f, arrayName)
    ensures Good(Render(names, blocks), arrayName)
  {
    var samples := Render(names, blocks);
    forall q: nat | q < |samples|
      ensures Conforms(samples[q]) && samples[q].labels != [] && samples[q].labels[0] == Label("array", arrayName)
    {
      assert Schema(blocks[q / 8].labels, f, arrayName) && samples[q].labels == blocks[q / 8].labels;
      assert |LabelNames(samples[q].labels)| == |samples[q].labels|;
      assert samples[q].name == names.At(q % 8);
    }
  }
}
