/** Cluster summaries built from a given labelling of the embedding
    vectors (src/layer2/clustering.py). The density-based clusterer itself
    is not modelled: its labels and membership probabilities are inputs. */
module Clustering {
  import opened Common
  import opened Embeddings

  /** The label the clusterer gives to points in no cluster. */
  const NOISE: int := -1

  datatype ClusterSummary = ClusterSummary(clusterLabel: int, reviewIds: seq<string>, centroid: seq<real>, strength: real)

  /** `summaries` is the result dict as its (key, value) pairs in insertion order. */
  datatype ClusteringResult = ClusteringResult(labels: seq<int>, probabilities: seq<real>,
                                               summaries: seq<(int, ClusterSummary)>)

  function Keys<K, V>(d: seq<(K, V)>): (r: seq<K>)
    ensures |r| == |d| && forall t | 0 <= t < |d| :: r[t] == d[t].0
  {
    seq(|d|, t requires 0 <= t < |d| => d[t].0)
  }

  // ---------------------------------------------------------------------
  // sorted(set(labels))

  predicate StrictlyIncreasing(s: seq<int>)
  {
    forall t, u | 0 <= t < u < |s| :: s[t] < s[u]
  }

  function InsertKey(x: int, s: seq<int>): (r: seq<int>)
    requires StrictlyIncreasing(s)
    ensures StrictlyIncreasing(r)
    ensures forall y :: y in r <==> y in s || y == x
    decreases |s|
  {
    if s == [] then [x]
    else if x < s[0] then [x] + s
    else if x == s[0] then s
    else
      var rest := InsertKey(x, s[1..]);
      assert forall t | 0 <= t < |rest| :: s[0] < rest[t] by {
        forall t | 0 <= t < |rest| ensures s[0] < rest[t] {
          assert rest[t] in rest;
        }
      }
      [s[0]] + rest
  }

  /** `sorted(set(labels))`: each label once, in ascending order. */
  function SortedDistinct(labels: seq<int>): (r: seq<int>)
    ensures StrictlyIncreasing(r)
    ensures forall y :: y in r <==> y in labels
    decreases |labels|
  {
    if labels == [] then []
    else InsertKey(labels[|labels| - 1], SortedDistinct(labels[..|labels| - 1]))
  }

  // ---------------------------------------------------------------------
  // Selection by label (`np.where(labels == c)`) and means

  /** The elements of `xs` at the indices whose label is `c`, in index order. */
  function Select<T>(labels: seq<int>, xs: seq<T>, c: int): (r: seq<T>)
    requires |labels| == |xs|
    ensures r != [] <==> c in labels
    decreases |labels|
  {
    if labels == [] then []
    else Select(labels[..|labels| - 1], xs[..|xs| - 1], c)
         + (if labels[|labels| - 1] == c then [xs[|xs| - 1]] else [])
  }

  /** `np.where(labels == c)[0]` */
  function Indices(labels: seq<int>, c: int): seq<nat>
    decreases |labels|
  {
    if labels == [] then []
    else Indices(labels[..|labels| - 1], c) + (if labels[|labels| - 1] == c then [|labels| - 1] else [])
  }

  function Sum(xs: seq<real>): real
    decreases |xs|
  {
    if xs == [] then 0.0 else Sum(xs[..|xs| - 1]) + xs[|xs| - 1]
  }

  function Comp(v: seq<real>, k: nat): real
  {
    if k < |v| then v[k] else 0.0
  }

  /** The sum of component `k` over the vectors `vs`. */
  function SumAt(vs: seq<seq<real>>, k: nat): real
    decreases |vs|
  {
    if vs == [] then 0.0 else SumAt(vs[..|vs| - 1], k) + Comp(vs[|vs| - 1], k)
  }

  function Mean(xs: seq<real>): real
    requires xs != []
  {
    Sum(xs) / (|xs| as real)
  }

  /** `vs.mean(axis=0)` for rows of equal length. */
  function MeanVec(vs: seq<seq<real>>): (r: seq<real>)
    requires vs != []
    ensures |r| == |vs[0]|
  {
    seq(|vs[0]|, k requires 0 <= k < |vs[0]| => SumAt(vs, k) / (|vs| as real))
  }

  predicate Uniform(vs: seq<seq<real>>, dim: nat)
  {
    forall t | 0 <= t < |vs| :: |vs[t]| == dim
  }

  // ---------------------------------------------------------------------
  // Building the summaries

  /** The item-level inputs agree in length, as the clusterer produces one
      label and one probability per vector. */
  predicate WellFormed(labels: seq<int>, probs: seq<real>, batch: EmbeddingBatch)
  {
    |labels| == |probs| == |batch.reviewIds| == |batch.vectors|
  }

  /** The summary of cluster `c`: its members, their mean vector and their
      mean probability. */
  function SummaryOf(labels: seq<int>, probs: seq<real>, batch: EmbeddingBatch, c: int): ClusterSummary
    requires WellFormed(labels, probs, batch)
    requires c in labels
  {
    ClusterSummary(c, Select(labels, batch.reviewIds, c),
                   MeanVec(Select(labels, batch.vectors, c)),
                   Mean(Select(labels, probs, c)))
  }

  /** Every key is a label of some item. */
  predicate AmongLabels(keys: seq<int>, labels: seq<int>)
  {
    forall t | 0 <= t < |keys| :: keys[t] in labels
  }

  /** The dict the loop over `keys` builds: one entry per key other than noise. */
  function SummariesFor(labels: seq<int>, probs: seq<real>, batch: EmbeddingBatch, keys: seq<int>)
    : seq<(int, ClusterSummary)>
    requires WellFormed(labels, probs, batch)
    requires AmongLabels(keys, labels)
    decreases |keys|
  {
    if keys == [] then []
    else
      var c := keys[|keys| - 1];
      SummariesFor(labels, probs, batch, keys[..|keys| - 1])
      + (if c == NOISE then [] else [(c, SummaryOf(labels, probs, batch, c))])
  }

  /** `ReviewClusterer._build_summaries` */
  method BuildSummaries(labels: seq<int>, probs: seq<real>, batch: EmbeddingBatch)
    returns (summaries: seq<(int, ClusterSummary)>)
    requires WellFormed(labels, probs, batch)
    ensures summaries == SummariesFor(labels, probs, batch, SortedDistinct(labels))
  {
    var keys := SortedDistinct(labels);
    summaries := [];
    var i := 0;
    while i < |keys|
      invariant 0 <= i <= |keys|
      invariant summaries == SummariesFor(labels, probs, batch, keys[..i])
    {
      var c := keys[i];
      SummariesStep(labels, probs, batch, keys, i);
      if c != NOISE {
        summaries := summaries + [(c, SummaryOf(labels, probs, batch, c))];
      }
      i := i + 1;
    }
    assert keys[..|keys|] == keys;
  }

  /** The loop of `_build_summaries` at one more key. */
  lemma SummariesStep(labels: seq<int>, probs: seq<real>, batch: EmbeddingBatch, keys: seq<int>, i: nat)
    requires WellFormed(labels, probs, batch) && AmongLabels(keys, labels) && i < |keys|
    ensures AmongLabels(keys[..i], labels) && AmongLabels(keys[..i + 1], labels) && keys[i] in labels
    ensures SummariesFor(labels, probs, batch, keys[..i + 1])
            == SummariesFor(labels, probs, batch, keys[..i])
               + (if keys[i] == NOISE then [] else [(keys[i], SummaryOf(labels, probs, batch, keys[i]))])
  {
    assert keys[..i + 1][..i] == keys[..i];
  }


  function Ones(n: nat): (r: seq<real>)
    ensures |r| == n && forall t | 0 <= t < n :: r[t] == 1.0
  {
    seq(n, t => 1.0)
  }

  /** numpy's `array.size`: the number of entries of the matrix. */
  function Size(vs: seq<seq<real>>): nat
    decreases |vs|
  {
    if vs == [] then 0 else Size(vs[..|vs| - 1]) + |vs[|vs| - 1]|
  }

  /** `ReviewClusterer.cluster`: `labels` and `probabilities` are what the
      clusterer reports for `batch.vectors`; `probabilities` is `None`
      when it reports none. */
  method Cluster(batch: EmbeddingBatch, labels: seq<int>, probabilities: Option<seq<real>>)
    returns (r: ClusteringResult)
    requires |batch.reviewIds| == |batch.vectors| == |labels|
    requires probabilities.Some? ==> |probabilities.value| == |labels|
    ensures Size(batch.vectors) == 0 ==> r == ClusteringResult([], [], [])
    ensures Size(batch.vectors) != 0 ==>
              && r.labels == labels
              && r.probabilities == (if probabilities.Some? then probabilities.value else Ones(|labels|))
              && r.summaries == SummariesFor(labels, r.probabilities, batch, SortedDistinct(labels))
  {
    if Size(batch.vectors) == 0 {
      return ClusteringResult([], [], []);
    }
    var probs := if probabilities.Some? then probabilities.value else Ones(|labels|);
    var summaries := BuildSummaries(labels, probs, batch);
    r := ClusteringResult(labels, probs, summaries);
  }

  // ---------------------------------------------------------------------
  // Properties of selection

  lemma {:induction false} SelectNonEmpty<T>(labels: seq<int>, xs: seq<T>, c: int)
    requires |labels| == |xs|
    ensures c in labels <==> Select(labels, xs, c) != []
    decreases |labels|
  {
    if labels != [] {
      var init := labels[..|labels| - 1];
      assert labels == init + [labels[|labels| - 1]];
      SelectNonEmpty(init, xs[..|xs| - 1], c);
    }
  }

  /** The members of `c` are the elements at the indices labelled `c`, in
      ascending index order, and every index labelled `c` is among them. */
  lemma {:induction false} SelectIsIndexed<T>(labels: seq<int>, xs: seq<T>, c: int)
    requires |labels| == |xs|
    ensures SubseqBy(Select(labels, xs, c), xs, Indices(labels, c))
    ensures forall t | 0 <= t < |Indices(labels, c)| :: labels[Indices(labels, c)[t]] == c
    ensures forall i | 0 <= i < |labels| && labels[i] == c :: i in Indices(labels, c)
    decreases |labels|
  {
    if labels != [] {
      var n := |labels|;
      var init, xinit := labels[..n - 1], xs[..n - 1];
      SelectIsIndexed(init, xinit, c);
      var f := Indices(init, c);
      assert forall t | 0 <= t < |f| :: f[t] < n - 1;
      if labels[n - 1] == c {
        SubsequenceAppend(Select(init, xinit, c), xinit, f, xs[n - 1]);
        assert xinit + [xs[n - 1]] == xs;
      } else {
        SubsequenceExtend(Select(init, xinit, c), xinit, f, xs[n - 1]);
        assert xinit + [xs[n - 1]] == xs;
      }
    }
  }

  /** Selection commutes with an element-wise map. */
  lemma {:induction false} SelectMap<T, U>(labels: seq<int>, xs: seq<T>, ys: seq<U>, g: T -> U, c: int)
    requires |labels| == |xs| == |ys|
    requires forall i | 0 <= i < |xs| :: ys[i] == g(xs[i])
    ensures |Select(labels, xs, c)| == |Select(labels, ys, c)|
    ensures forall t | 0 <= t < |Select(labels, xs, c)| :: Select(labels, ys, c)[t] == g(Select(labels, xs, c)[t])
    decreases |labels|
  {
    if labels != [] {
      var n := |labels|;
      SelectMap(labels[..n - 1], xs[..n - 1], ys[..n - 1], g, c);
    }
  }

  lemma {:induction false} SelectUniform(labels: seq<int>, vs: seq<seq<real>>, dim: nat, c: int)
    requires |labels| == |vs| && Uniform(vs, dim)
    ensures Uniform(Select(labels, vs, c), dim)
    decreases |labels|
  {
    if labels != [] {
      var n := |labels|;
      SelectUniform(labels[..n - 1], vs[..n - 1], dim, c);
    }
  }

  lemma {:induction false} SelectSingle<T>(labels: seq<int>, xs: seq<T>, c: int, i: nat)
    requires |labels| == |xs| && i < |labels| && labels[i] == c
    requires forall j | 0 <= j < |labels| && j != i :: labels[j] != c
    ensures Select(labels, xs, c) == [xs[i]]
    decreases |labels|
  {
    var n := |labels|;
    if i == n - 1 {
      SelectNonEmpty(labels[..n - 1], xs[..n - 1], c);
    } else {
      SelectSingle(labels[..n - 1], xs[..n - 1], c, i);
    }
  }

  lemma {:induction false} SelectOnes(labels: seq<int>, c: int)
    ensures Select(labels, Ones(|labels|), c) == Ones(|Select(labels, Ones(|labels|), c)|)
    decreases |labels|
  {
    if labels != [] {
      var n := |labels|;
      assert Ones(n)[..n - 1] == Ones(n - 1);
      SelectOnes(labels[..n - 1], c);
    }
  }

  lemma {:induction false} SumOnes(n: nat)
    ensures Sum(Ones(n)) == n as real
    decreases n
  {
    if n > 0 {
      assert Ones(n)[..n - 1] == Ones(n - 1);
      SumOnes(n - 1);
    }
  }

  /** Every value lies in [0, 1]. */
  predicate Unit(xs: seq<real>)
  {
    forall t | 0 <= t < |xs| :: 0.0 <= xs[t] <= 1.0
  }

  lemma {:induction false} SumBounds(xs: seq<real>)
    requires Unit(xs)
    ensures 0.0 <= Sum(xs) <= |xs| as real
    decreases |xs|
  {
    if xs != [] {
      SumBounds(xs[..|xs| - 1]);
    }
  }

  // ---------------------------------------------------------------------
  // Properties of the summaries

  /** `keys` without the noise label. */
  function DropNoise(keys: seq<int>): (r: seq<int>)
    ensures forall c :: c in r <==> c in keys && c != NOISE
    decreases |keys|
  {
    if keys == [] then []
    else DropNoise(keys[..|keys| - 1]) + (if keys[|keys| - 1] == NOISE then [] else [keys[|keys| - 1]])
  }

  lemma {:induction false} DropNoiseIncreasing(keys: seq<int>)
    requires StrictlyIncreasing(keys)
    ensures StrictlyIncreasing(DropNoise(keys))
    decreases |keys|
  {
    if keys != [] {
      var init := keys[..|keys| - 1];
      DropNoiseIncreasing(init);
      var r0 := DropNoise(init);
      forall t | 0 <= t < |r0| ensures r0[t] < keys[|keys| - 1] {
        assert r0[t] in r0;
      }
    }
  }

  lemma {:induction false} KeysOfSummaries(labels: seq<int>, probs: seq<real>, batch: EmbeddingBatch, keys: seq<int>)
    requires WellFormed(labels, probs, batch)
    requires AmongLabels(keys, labels)
    ensures Keys(SummariesFor(labels, probs, batch, keys)) == DropNoise(keys)
    decreases |keys|
  {
    if keys != [] {
      var init := keys[..|keys| - 1];
      KeysOfSummaries(labels, probs, batch, init);
    }
  }

  lemma {:induction false} EntriesOfSummaries(labels: seq<int>, probs: seq<real>, batch: EmbeddingBatch, keys: seq<int>)
    requires WellFormed(labels, probs, batch)
    requires AmongLabels(keys, labels)
    ensures forall t | 0 <= t < |SummariesFor(labels, probs, batch, keys)| ::
              SummariesFor(labels, probs, batch, keys)[t].0 in labels
              && SummariesFor(labels, probs, batch, keys)[t].1.clusterLabel
                 == SummariesFor(labels, probs, batch, keys)[t].0
    decreases |keys|
  {
    if keys != [] {
      var init := keys[..|keys| - 1];
      EntriesOfSummaries(labels, probs, batch, init);
    }
  }

  /** The dict's keys are exactly the labels other than noise, ascending,
      and each entry's `label` is its key. */
  lemma SummaryKeys(labels: seq<int>, probs: seq<real>, batch: EmbeddingBatch)
    requires WellFormed(labels, probs, batch)
    ensures var d := SummariesFor(labels, probs, batch, SortedDistinct(labels));
            && (forall c :: c in Keys(d) <==> c in labels && c != NOISE)
            && StrictlyIncreasing(Keys(d))
            && (forall t | 0 <= t < |d| :: d[t].1.clusterLabel == d[t].0)
  {
    var keys := SortedDistinct(labels);
    KeysOfSummaries(labels, probs, batch, keys);
    DropNoiseIncreasing(keys);
    EntriesOfSummaries(labels, probs, batch, keys);
  }

  /** No summary is empty; its members are the ids at the indices with its
      label, in index order; its centroid is the mean of their vectors and
      its strength the mean of their probabilities. */
  lemma SummaryContents(labels: seq<int>, probs: seq<real>, batch: EmbeddingBatch, c: int)
    requires WellFormed(labels, probs, batch)
    requires c in labels
    ensures var s := SummaryOf(labels, probs, batch, c);
            && s.clusterLabel == c
            && s.reviewIds != []
            && SubseqBy(s.reviewIds, batch.reviewIds, Indices(labels, c))
            && (forall t | 0 <= t < |Indices(labels, c)| :: labels[Indices(labels, c)[t]] == c)
            && (forall i | 0 <= i < |labels| && labels[i] == c :: i in Indices(labels, c))
            && s.centroid == MeanVec(Select(labels, batch.vectors, c))
            && s.strength == Mean(Select(labels, probs, c))
  {
    SelectNonEmpty(labels, batch.reviewIds, c);
    SelectIsIndexed(labels, batch.reviewIds, c);
  }

  /** A cluster with a single member has that member's vector as centroid. */
  lemma SingletonCentroid(labels: seq<int>, probs: seq<real>, batch: EmbeddingBatch, i: nat)
    requires WellFormed(labels, probs, batch)
    requires i < |labels|
    requires forall j | 0 <= j < |labels| && j != i :: labels[j] != labels[i]
    ensures SummaryOf(labels, probs, batch, labels[i]).centroid == batch.vectors[i]
    ensures SummaryOf(labels, probs, batch, labels[i]).strength == probs[i]
  {
    var c := labels[i];
    SelectSingle(labels, batch.vectors, c, i);
    SelectSingle(labels, probs, c, i);
    var v := batch.vectors[i];
    var noVecs: seq<seq<real>> := [];
    assert [v][..0] == noVecs;
    forall k | 0 <= k < |v| ensures SumAt([v], k) == v[k] { }
    var noReals: seq<real> := [];
    assert [probs[i]][..0] == noReals;
    assert Sum([probs[i]]) == probs[i];
  }

  lemma DivSelf(n: real)
    requires n > 0.0
    ensures n / n == 1.0
  {
    var q := n / n;
    assert q * n == n;
    assert (q - 1.0) * n == 0.0;
  }

  /** With the default probabilities every strength is 1.0. */
  lemma DefaultStrength(labels: seq<int>, batch: EmbeddingBatch, c: int)
    requires WellFormed(labels, Ones(|labels|), batch)
    requires c in labels
    ensures SummaryOf(labels, Ones(|labels|), batch, c).strength == 1.0
  {
    var sel := Select(labels, Ones(|labels|), c);
    SelectOnes(labels, c);
    SumOnes(|sel|);
    var n := |sel| as real;
    assert n > 0.0;
    assert Sum(sel) == n;
    assert Mean(sel) == n / n;
    DivSelf(n);
    assert SummaryOf(labels, Ones(|labels|), batch, c).strength == Mean(sel);
  }

  /** Probabilities in [0, 1] give strengths in [0, 1]. */
  lemma StrengthBounds(labels: seq<int>, probs: seq<real>, batch: EmbeddingBatch, c: int)
    requires WellFormed(labels, probs, batch)
    requires c in labels
    requires Unit(probs)
    ensures 0.0 <= SummaryOf(labels, probs, batch, c).strength <= 1.0
  {
    var sel := Select(labels, probs, c);
    SelectUnit(labels, probs, c);
    SelectNonEmpty(labels, probs, c);
    MeanBounds(sel);
  }

  lemma {:induction false} SelectUnit(labels: seq<int>, probs: seq<real>, c: int)
    requires |labels| == |probs| && Unit(probs)
    ensures Unit(Select(labels, probs, c))
    decreases |labels|
  {
    if labels != [] {
      var n := |labels|;
      SelectUnit(labels[..n - 1], probs[..n - 1], c);
    }
  }

  /** The mean of values in [0, 1] lies in [0, 1]. */
  lemma MeanBounds(xs: seq<real>)
    requires xs != [] && Unit(xs)
    ensures 0.0 <= Mean(xs) <= 1.0
  {
    SumBounds(xs);
    var n := |xs| as real;
    var q := Sum(xs) / n;
    assert q * n == Sum(xs);
    assert q * n <= 1.0 * n;
  }

  /** All member ids of a list of summaries, in order. */
  function AllIds(cs: seq<ClusterSummary>): seq<string>
    decreases |cs|
  {
    if cs == [] then [] else AllIds(cs[..|cs| - 1]) + cs[|cs| - 1].reviewIds
  }

  lemma {:induction false} AllIdsConcat(a: seq<ClusterSummary>, b: seq<ClusterSummary>)
    ensures AllIds(a + b) == AllIds(a) + AllIds(b)
    decreases |b|
  {
    if b == [] {
      assert a + b == a;
    } else {
      assert (a + b)[..|a + b| - 1] == a + b[..|b| - 1];
      AllIdsConcat(a, b[..|b| - 1]);
    }
  }

  /** The elements whose label lies in `keys`. */
  function SelectIn<T>(labels: seq<int>, xs: seq<T>, keys: set<int>): seq<T>
    requires |labels| == |xs|
    decreases |labels|
  {
    if labels == [] then []
    else SelectIn(labels[..|labels| - 1], xs[..|xs| - 1], keys)
         + (if labels[|labels| - 1] in keys then [xs[|xs| - 1]] else [])
  }

  lemma {:induction false} SelectInAdd<T>(labels: seq<int>, xs: seq<T>, keys: set<int>, c: int)
    requires |labels| == |xs| && c !in keys
    ensures multiset(SelectIn(labels, xs, keys + {c}))
            == multiset(SelectIn(labels, xs, keys)) + multiset(Select(labels, xs, c))
    decreases |labels|
  {
    if labels != [] {
      var n := |labels|;
      SelectInAdd(labels[..n - 1], xs[..n - 1], keys, c);
    }
  }

  /** The elements whose label is not noise. */
  function NonNoise<T>(labels: seq<int>, xs: seq<T>): seq<T>
    requires |labels| == |xs|
    decreases |labels|
  {
    if labels == [] then []
    else NonNoise(labels[..|labels| - 1], xs[..|xs| - 1])
         + (if labels[|labels| - 1] != NOISE then [xs[|xs| - 1]] else [])
  }

  lemma {:induction false} SelectInNonNoise<T>(labels: seq<int>, xs: seq<T>, keys: set<int>)
    requires |labels| == |xs|
    requires forall t | 0 <= t < |labels| :: labels[t] in keys <==> labels[t] != NOISE
    ensures SelectIn(labels, xs, keys) == NonNoise(labels, xs)
    decreases |labels|
  {
    if labels != [] {
      var n := |labels|;
      SelectInNonNoise(labels[..n - 1], xs[..n - 1], keys);
    }
  }

  /** The members of each key in turn. */
  function Grouped<T>(labels: seq<int>, xs: seq<T>, keys: seq<int>): seq<T>
    requires |labels| == |xs|
    decreases |keys|
  {
    if keys == [] then [] else Grouped(labels, xs, keys[..|keys| - 1]) + Select(labels, xs, keys[|keys| - 1])
  }

  function SetOf(keys: seq<int>): (r: set<int>)
    ensures forall c :: c in r <==> c in keys
    decreases |keys|
  {
    if keys == [] then {} else SetOf(keys[..|keys| - 1]) + {keys[|keys| - 1]}
  }

  lemma AllIdsOfValuesAppend(d: seq<(int, ClusterSummary)>, p: (int, ClusterSummary))
    ensures AllIds(Seconds(d + [p])) == AllIds(Seconds(d)) + p.1.reviewIds
  {
    assert Seconds(d + [p])[..|d|] == Seconds(d);
  }

  lemma {:induction false} SummariesGrouped(labels: seq<int>, probs: seq<real>, batch: EmbeddingBatch, keys: seq<int>)
    requires WellFormed(labels, probs, batch)
    requires AmongLabels(keys, labels)
    ensures AllIds(Seconds(SummariesFor(labels, probs, batch, keys))) == Grouped(labels, batch.reviewIds, DropNoise(keys))
    decreases |keys|
  {
    if keys != [] {
      var init := keys[..|keys| - 1];
      var c := keys[|keys| - 1];
      SummariesGrouped(labels, probs, batch, init);
      var d0 := SummariesFor(labels, probs, batch, init);
      if c != NOISE {
        var sc := SummaryOf(labels, probs, batch, c);
        assert SummariesFor(labels, probs, batch, keys) == d0 + [(c, sc)];
        AllIdsOfValuesAppend(d0, (c, sc));
        var dn := DropNoise(keys);
        assert dn == DropNoise(init) + [c];
        assert dn[..|dn| - 1] == DropNoise(init);
        assert Grouped(labels, batch.reviewIds, dn)
               == Grouped(labels, batch.reviewIds, DropNoise(init)) + Select(labels, batch.reviewIds, c);
      } else {
        assert SummariesFor(labels, probs, batch, keys) == d0;
        assert DropNoise(keys) == DropNoise(init);
      }
    }
  }

  lemma {:induction false} GroupedMultiset<T>(labels: seq<int>, xs: seq<T>, keys: seq<int>)
    requires |labels| == |xs|
    requires StrictlyIncreasing(keys)
    ensures multiset(Grouped(labels, xs, keys)) == multiset(SelectIn(labels, xs, SetOf(keys)))
    decreases |keys|
  {
    if keys == [] {
      ClearSelectIn(labels, xs);
    } else {
      var init := keys[..|keys| - 1];
      var c := keys[|keys| - 1];
      GroupedMultiset(labels, xs, init);
      assert c !in SetOf(init);
      assert SetOf(keys) == SetOf(init) + {c};
      SelectInAdd(labels, xs, SetOf(init), c);
    }
  }

  lemma {:induction false} ClearSelectIn<T>(labels: seq<int>, xs: seq<T>)
    requires |labels| == |xs|
    ensures SelectIn(labels, xs, {}) == []
    decreases |labels|
  {
    if labels != [] {
      ClearSelectIn(labels[..|labels| - 1], xs[..|xs| - 1]);
    }
  }

  /** Every item that is not noise lies in exactly one summary: the members
      of all summaries together are, as a multiset, the ids of the items
      that are not noise. */
  lemma SummaryPartition(labels: seq<int>, probs: seq<real>, batch: EmbeddingBatch)
    requires WellFormed(labels, probs, batch)
    ensures multiset(AllIds(Seconds(SummariesFor(labels, probs, batch, SortedDistinct(labels)))))
            == multiset(NonNoise(labels, batch.reviewIds))
  {
    var keys := SortedDistinct(labels);
    SummariesGrouped(labels, probs, batch, keys);
    DropNoiseIncreasing(keys);
    GroupedMultiset(labels, batch.reviewIds, DropNoise(keys));
    SelectInNonNoise(labels, batch.reviewIds, SetOf(DropNoise(keys)));
  }

  // ---------------------------------------------------------------------
  // The mean invariant that merging preserves

  /** The vectors of `ids` under an id-to-vector assignment. */
  /** `c` is a non-empty cluster of `dim`-dimensional vectors whose centroid
      is the mean of its members' vectors and whose strength is the mean of
      their probabilities. */
  ghost predicate MeanOver(c: ClusterSummary, vecOf: string -> seq<real>, probOf: string -> real, dim: nat)
  {
    && c.reviewIds != []
    && |c.centroid| == dim
    && (forall k | 0 <= k < dim :: c.centroid[k] * (|c.reviewIds| as real) == SumAt(Map(c.reviewIds, vecOf), k))
    && c.strength * (|c.reviewIds| as real) == Sum(Map(c.reviewIds, probOf))
  }

  lemma MeanVecScaled(vs: seq<seq<real>>, k: nat)
    requires vs != [] && k < |vs[0]|
    ensures MeanVec(vs)[k] * (|vs| as real) == SumAt(vs, k)
  {
  }

  lemma MeanScaled(xs: seq<real>)
    requires xs != []
    ensures Mean(xs) * (|xs| as real) == Sum(xs)
  {
  }

  lemma SelectVectorsOf(labels: seq<int>, ids: seq<string>, vs: seq<seq<real>>, c: int, vecOf: string -> seq<real>)
    requires |labels| == |ids| == |vs|
    requires forall i | 0 <= i < |ids| :: vecOf(ids[i]) == vs[i]
    ensures Select(labels, vs, c) == Map(Select(labels, ids, c), vecOf)
  {
    SelectMap(labels, ids, vs, vecOf, c);
  }

  lemma SelectProbsOf(labels: seq<int>, ids: seq<string>, ps: seq<real>, c: int, probOf: string -> real)
    requires |labels| == |ids| == |ps|
    requires forall i | 0 <= i < |ids| :: probOf(ids[i]) == ps[i]
    ensures Select(labels, ps, c) == Map(Select(labels, ids, c), probOf)
  {
    SelectMap(labels, ids, ps, probOf, c);
  }

  lemma MeanOverOfMeans(c: int, ids: seq<string>, vs: seq<seq<real>>, ps: seq<real>,
                        vecOf: string -> seq<real>, probOf: string -> real, dim: nat)
    requires ids != [] && vs == Map(ids, vecOf) && ps == Map(ids, probOf)
    requires Uniform(vs, dim)
    ensures MeanOver(ClusterSummary(c, ids, MeanVec(vs), Mean(ps)), vecOf, probOf, dim)
  {
    forall k | 0 <= k < dim
      ensures MeanVec(vs)[k] * (|ids| as real) == SumAt(vs, k)
    {
      MeanVecScaled(vs, k);
    }
    MeanScaled(ps);
  }

  /** A built summary satisfies the mean invariant for the assignment that
      gives each id its own vector and probability. */
  lemma SummaryMeanOver(labels: seq<int>, probs: seq<real>, batch: EmbeddingBatch, c: int,
                        vecOf: string -> seq<real>, probOf: string -> real, dim: nat)
    requires WellFormed(labels, probs, batch)
    requires c in labels
    requires Uniform(batch.vectors, dim)
    requires forall i | 0 <= i < |labels| :: vecOf(batch.reviewIds[i]) == batch.vectors[i]
    requires forall i | 0 <= i < |labels| :: probOf(batch.reviewIds[i]) == probs[i]
    ensures MeanOver(SummaryOf(labels, probs, batch, c), vecOf, probOf, dim)
  {
    var s := SummaryOf(labels, probs, batch, c);
    var ids := Select(labels, batch.reviewIds, c);
    var vs := Select(labels, batch.vectors, c);
    var ps := Select(labels, probs, c);
    assert s == ClusterSummary(c, ids, MeanVec(vs), Mean(ps));
    SelectVectorsOf(labels, batch.reviewIds, batch.vectors, c, vecOf);
    SelectProbsOf(labels, batch.reviewIds, probs, c, probOf);
    SelectUniform(labels, batch.vectors, dim, c);
    MeanOverOfMeans(c, ids, vs, ps, vecOf, probOf, dim);
  }
}
