/** Merging clusters down to at most `max_themes` themes by centroid
    similarity (src/layer2/theme_limiter.py). The Euclidean norm is a
    parameter: the model has no square root. */
module ThemeLimiter {
  import opened Common
  import opened Clustering

  datatype ThemeLimiterConfig = ThemeLimiterConfig(maxThemes: int)

  const DefaultConfig: ThemeLimiterConfig := ThemeLimiterConfig(5)

  // ---------------------------------------------------------------------
  // Cosine similarity

  function Dot(a: seq<real>, b: seq<real>): real
    requires |a| == |b|
    decreases |a|
  {
    if a == [] then 0.0 else Dot(a[..|a| - 1], b[..|b| - 1]) + a[|a| - 1] * b[|b| - 1]
  }

  /** `cosine_similarity`, with `norm` standing for `np.linalg.norm`. */
  function Cosine(a: seq<real>, b: seq<real>, norm: seq<real> -> real): real
    requires |a| == |b|
  {
    var denominator := norm(a) * norm(b);
    if denominator == 0.0 then 0.0 else Dot(a, b) / denominator
  }

  lemma {:induction false} DotSymmetric(a: seq<real>, b: seq<real>)
    requires |a| == |b|
    ensures Dot(a, b) == Dot(b, a)
    decreases |a|
  {
    if a != [] {
      DotSymmetric(a[..|a| - 1], b[..|b| - 1]);
    }
  }

  /** Similarity is symmetric, and it is 0.0 whenever either norm is zero. */
  lemma CosineSymmetric(a: seq<real>, b: seq<real>, norm: seq<real> -> real)
    requires |a| == |b|
    ensures Cosine(a, b, norm) == Cosine(b, a, norm)
    ensures norm(a) == 0.0 || norm(b) == 0.0 ==> Cosine(a, b, norm) == 0.0
  {
    DotSymmetric(a, b);
  }

  /** With `norm(a)` the square root of `a · a`, a non-zero vector is
      perfectly similar to itself. */
  lemma CosineSelf(a: seq<real>, norm: seq<real> -> real)
    requires norm(a) * norm(a) == Dot(a, a) && Dot(a, a) != 0.0
    ensures Cosine(a, a, norm) == 1.0
  {
    var d := norm(a) * norm(a);
    assert Dot(a, a) / d == 1.0;
  }

  // ---------------------------------------------------------------------
  // The most similar pair

  predicate SameDim(cs: seq<ClusterSummary>, dim: nat)
  {
    forall t | 0 <= t < |cs| :: |cs[t].centroid| == dim
  }

  function Score(cs: seq<ClusterSummary>, i: nat, j: nat, norm: seq<real> -> real): real
    requires i < |cs| && j < |cs| && |cs[i].centroid| == |cs[j].centroid|
  {
    Cosine(cs[i].centroid, cs[j].centroid, norm)
  }

  /** Pair (p, q) comes before (i, j) in the loops' order. */
  predicate Before(p: int, q: int, i: int, j: int)
  {
    p < i || (p == i && q < j)
  }

  /** What the loops know once they have scored every pair before (i, j):
      either no pair so far scored above -1.0 and the initial pair
      (0, 1) stands, or (bi, bj) is the first pair with the best score. */
  ghost predicate Tracks(cs: seq<ClusterSummary>, dim: nat, norm: seq<real> -> real,
                         i: int, j: int, best: real, bi: nat, bj: nat)
    requires SameDim(cs, dim)
  {
    || (&& best == -1.0 && bi == 0 && bj == 1
        && forall p, q | 0 <= p < q < |cs| && Before(p, q, i, j) :: Score(cs, p, q, norm) <= -1.0)
    || (&& best > -1.0 && bi < bj < |cs| && Before(bi, bj, i, j) && best == Score(cs, bi, bj, norm)
        && (forall p, q | 0 <= p < q < |cs| && Before(p, q, i, j) :: Score(cs, p, q, norm) <= best)
        && (forall p, q | 0 <= p < q < |cs| && Before(p, q, bi, bj) :: Score(cs, p, q, norm) < best))
  }

  /** (bi, bj) is the first pair, in ascending (i, j) order, whose score is
      maximal, and that score is above -1.0. */
  ghost predicate FirstBest(cs: seq<ClusterSummary>, dim: nat, norm: seq<real> -> real, bi: nat, bj: nat)
    requires SameDim(cs, dim)
  {
    && bi < bj < |cs|
    && Score(cs, bi, bj, norm) > -1.0
    && (forall p, q | 0 <= p < q < |cs| :: Score(cs, p, q, norm) <= Score(cs, bi, bj, norm))
    && (forall p, q | 0 <= p < q < |cs| && Before(p, q, bi, bj) :: Score(cs, p, q, norm) < Score(cs, bi, bj, norm))
  }

  /** The pair that the nested loops of `_find_most_similar_pair` return
      when they resume at pair (i, j) holding `best`, `bi` and `bj`: a pair
      replaces the current one only when it scores strictly higher. */
  ghost function Scan(cs: seq<ClusterSummary>, norm: seq<real> -> real, dim: nat,
                      i: nat, j: nat, best: real, bi: nat, bj: nat): (p: (nat, nat))
    requires SameDim(cs, dim) && bi < bj && i < j
    ensures p.0 < p.1
    ensures bj < |cs| ==> p.1 < |cs|
    decreases |cs| - i, |cs| - j
  {
    if i >= |cs| then (bi, bj)
    else if j >= |cs| then Scan(cs, norm, dim, i + 1, i + 2, best, bi, bj)
    else if Score(cs, i, j, norm) > best then Scan(cs, norm, dim, i, j + 1, Score(cs, i, j, norm), i, j)
    else Scan(cs, norm, dim, i, j + 1, best, bi, bj)
  }

  /** The pair `_find_most_similar_pair` returns, starting from (0, 1) with
      best score -1.0; it is a real pair whenever `cs` has two clusters. */
  ghost function BestPair(cs: seq<ClusterSummary>, norm: seq<real> -> real, dim: nat): (p: (nat, nat))
    requires SameDim(cs, dim)
    ensures p.0 < p.1 && (|cs| >= 2 ==> p.1 < |cs|)
  {
    Scan(cs, norm, dim, 0, 1, -1.0, 0, 1)
  }

  /** `ThemeLimiter._find_most_similar_pair` */
  method FindMostSimilarPair(cs: seq<ClusterSummary>, norm: seq<real> -> real, ghost dim: nat)
    returns (bi: nat, bj: nat)
    requires SameDim(cs, dim)
    ensures (bi, bj) == BestPair(cs, norm, dim)
  {
    bi, bj := 0, 1;
    var best := -1.0;
    var i := 0;
    while i < |cs|
      invariant 0 <= i <= |cs| && bi < bj
      invariant Scan(cs, norm, dim, i, i + 1, best, bi, bj) == BestPair(cs, norm, dim)
    {
      var j := i + 1;
      while j < |cs|
        invariant i + 1 <= j <= |cs| && bi < bj
        invariant Scan(cs, norm, dim, i, j, best, bi, bj) == BestPair(cs, norm, dim)
      {
        var score := Cosine(cs[i].centroid, cs[j].centroid, norm);
        if score > best {
          best := score;
          bi, bj := i, j;
        }
        j := j + 1;
      }
      i := i + 1;
    }
  }

  lemma TracksStart(cs: seq<ClusterSummary>, dim: nat, norm: seq<real> -> real)
    requires SameDim(cs, dim)
    ensures Tracks(cs, dim, norm, 0, 1, -1.0, 0, 1)
  {
  }

  /** Scoring pair (i, j) keeps `Tracks`. */
  lemma TracksStep(cs: seq<ClusterSummary>, dim: nat, norm: seq<real> -> real,
                   i: nat, j: nat, best: real, bi: nat, bj: nat)
    requires SameDim(cs, dim) && i < j < |cs| && Tracks(cs, dim, norm, i, j, best, bi, bj)
    ensures var score := Score(cs, i, j, norm);
            if score > best then Tracks(cs, dim, norm, i, j + 1, score, i, j)
            else Tracks(cs, dim, norm, i, j + 1, best, bi, bj)
  {
  }

  /** Finishing row i keeps `Tracks`. */
  lemma TracksRow(cs: seq<ClusterSummary>, dim: nat, norm: seq<real> -> real,
                  i: nat, j: nat, best: real, bi: nat, bj: nat)
    requires SameDim(cs, dim) && i < |cs| <= j && Tracks(cs, dim, norm, i, j, best, bi, bj)
    ensures Tracks(cs, dim, norm, i + 1, i + 2, best, bi, bj)
  {
  }

  /** The promise of `_find_most_similar_pair` about its result `p`: it
      is (0, 1) when no pair scores above -1.0, and otherwise the first
      pair, in the loops' order, with the highest score. */
  ghost predicate Chosen(cs: seq<ClusterSummary>, dim: nat, norm: seq<real> -> real, p: (nat, nat))
    requires SameDim(cs, dim)
  {
    && ((forall i, j | 0 <= i < j < |cs| :: Score(cs, i, j, norm) <= -1.0) ==> p == (0, 1))
    && ((exists i, j | 0 <= i < j < |cs| :: Score(cs, i, j, norm) > -1.0) ==> FirstBest(cs, dim, norm, p.0, p.1))
  }

  /** Once every row is done, `Tracks` gives the loops' promise. */
  lemma TracksDone(cs: seq<ClusterSummary>, dim: nat, norm: seq<real> -> real,
                   i: nat, j: nat, best: real, bi: nat, bj: nat)
    requires SameDim(cs, dim) && |cs| <= i && Tracks(cs, dim, norm, i, j, best, bi, bj)
    ensures Chosen(cs, dim, norm, (bi, bj))
  {
    if best > -1.0 {
      assert FirstBest(cs, dim, norm, bi, bj);
    }
  }

  lemma {:induction false} ScanTracks(cs: seq<ClusterSummary>, dim: nat, norm: seq<real> -> real,
                                      i: nat, j: nat, best: real, bi: nat, bj: nat)
    requires SameDim(cs, dim) && bi < bj && i < j && Tracks(cs, dim, norm, i, j, best, bi, bj)
    ensures Chosen(cs, dim, norm, Scan(cs, norm, dim, i, j, best, bi, bj))
    decreases |cs| - i, |cs| - j
  {
    if i >= |cs| {
      TracksDone(cs, dim, norm, i, j, best, bi, bj);
    } else {
      var next := Advance(cs, dim, norm, i, j, best, bi, bj);
      assert Scan(cs, norm, dim, i, j, best, bi, bj) == Scan(cs, norm, dim, next.0, next.1, next.2, next.3, next.4);
      if j >= |cs| {
        TracksRow(cs, dim, norm, i, j, best, bi, bj);
      } else {
        TracksStep(cs, dim, norm, i, j, best, bi, bj);
      }
      ScanTracks(cs, dim, norm, next.0, next.1, next.2, next.3, next.4);
    }
  }

  /** One step of the scan from pair (i, j): the next pair and the best
      score and pair so far. */
  ghost function Advance(cs: seq<ClusterSummary>, dim: nat, norm: seq<real> -> real,
                         i: nat, j: nat, best: real, bi: nat, bj: nat): (nat, nat, real, nat, nat)
    requires SameDim(cs, dim) && i < |cs| && i < j
  {
    if j >= |cs| then (i + 1, i + 2, best, bi, bj)
    else if Score(cs, i, j, norm) > best then (i, j + 1, Score(cs, i, j, norm), i, j)
    else (i, j + 1, best, bi, bj)
  }

  /** The pair is (0, 1) when no pair scores above -1.0; otherwise it is
      the first pair, in the loops' order, with the highest score. */
  lemma BestPairFacts(cs: seq<ClusterSummary>, norm: seq<real> -> real, dim: nat)
    requires SameDim(cs, dim)
    ensures (forall p, q | 0 <= p < q < |cs| :: Score(cs, p, q, norm) <= -1.0) ==> BestPair(cs, norm, dim) == (0, 1)
    ensures (exists p, q | 0 <= p < q < |cs| :: Score(cs, p, q, norm) > -1.0) ==>
              FirstBest(cs, dim, norm, BestPair(cs, norm, dim).0, BestPair(cs, norm, dim).1)
  {
    TracksStart(cs, dim, norm);
    ScanTracks(cs, dim, norm, 0, 1, -1.0, 0, 1);
  }

  // ---------------------------------------------------------------------
  // Merging two clusters

  /** `ThemeLimiter._merge_clusters`: the members are concatenated and the
      centroid and strength are averaged, weighted by member counts. */
  function Merge(left: ClusterSummary, right: ClusterSummary, newLabel: int): (m: ClusterSummary)
    requires |left.reviewIds| + |right.reviewIds| > 0
    requires |left.centroid| == |right.centroid|
    ensures m.clusterLabel == newLabel
    ensures m.reviewIds == left.reviewIds + right.reviewIds
    ensures |m.centroid| == |left.centroid|
  {
    var leftSize := |left.reviewIds| as real;
    var rightSize := |right.reviewIds| as real;
    var total := leftSize + rightSize;
    ClusterSummary(
      newLabel,
      left.reviewIds + right.reviewIds,
      seq(|left.centroid|, k requires 0 <= k < |left.centroid| =>
            (left.centroid[k] * leftSize + right.centroid[k] * rightSize) / total),
      (left.strength * leftSize + right.strength * rightSize) / total)
  }

  lemma {:induction false} SumAtConcat(a: seq<seq<real>>, b: seq<seq<real>>, k: nat)
    ensures SumAt(a + b, k) == SumAt(a, k) + SumAt(b, k)
    decreases |b|
  {
    if b == [] {
      assert a + b == a;
    } else {
      assert (a + b)[..|a + b| - 1] == a + b[..|b| - 1];
      SumAtConcat(a, b[..|b| - 1], k);
    }
  }

  lemma {:induction false} SumConcat(a: seq<real>, b: seq<real>)
    ensures Sum(a + b) == Sum(a) + Sum(b)
    decreases |b|
  {
    if b == [] {
      assert a + b == a;
    } else {
      assert (a + b)[..|a + b| - 1] == a + b[..|b| - 1];
      SumConcat(a, b[..|b| - 1]);
    }
  }

  lemma WeightedMean(x: real, y: real, ls: real, rs: real, sa: real, sb: real)
    requires ls >= 0.0 && rs >= 0.0 && ls + rs > 0.0
    requires x * ls == sa && y * rs == sb
    ensures ((x * ls + y * rs) / (ls + rs)) * (ls + rs) == sa + sb
  {
  }

  lemma MergeCentroid(left: ClusterSummary, right: ClusterSummary, newLabel: int, k: nat)
    requires |left.reviewIds| + |right.reviewIds| > 0
    requires |left.centroid| == |right.centroid| && k < |left.centroid|
    ensures Merge(left, right, newLabel).centroid[k] * (|left.reviewIds| as real + |right.reviewIds| as real)
            == left.centroid[k] * (|left.reviewIds| as real) + right.centroid[k] * (|right.reviewIds| as real)
  {
    var ls, rs := |left.reviewIds| as real, |right.reviewIds| as real;
    WeightedMean(left.centroid[k], right.centroid[k], ls, rs,
                 left.centroid[k] * ls, right.centroid[k] * rs);
  }

  lemma MergeStrength(left: ClusterSummary, right: ClusterSummary, newLabel: int)
    requires |left.reviewIds| + |right.reviewIds| > 0
    requires |left.centroid| == |right.centroid|
    ensures Merge(left, right, newLabel).strength * (|left.reviewIds| as real + |right.reviewIds| as real)
            == left.strength * (|left.reviewIds| as real) + right.strength * (|right.reviewIds| as real)
  {
    var ls, rs := |left.reviewIds| as real, |right.reviewIds| as real;
    WeightedMean(left.strength, right.strength, ls, rs, left.strength * ls, right.strength * rs);
  }

  lemma VectorsOfConcat(a: seq<string>, b: seq<string>, vecOf: string -> seq<real>)
    ensures Map(a + b, vecOf) == Map(a, vecOf) + Map(b, vecOf)
  {
  }

  lemma ProbsOfConcat(a: seq<string>, b: seq<string>, probOf: string -> real)
    ensures Map(a + b, probOf) == Map(a, probOf) + Map(b, probOf)
  {
  }

  /** The mean invariant for a cluster whose members are those of `left`
      followed by those of `right`, and whose centroid and strength are
      the member-count-weighted averages of theirs. */
  lemma MeanOverConcat(left: ClusterSummary, right: ClusterSummary, m: ClusterSummary,
                       vecOf: string -> seq<real>, probOf: string -> real, dim: nat)
    requires MeanOver(left, vecOf, probOf, dim) && MeanOver(right, vecOf, probOf, dim)
    requires m.reviewIds == left.reviewIds + right.reviewIds && |m.centroid| == dim
    requires forall k | 0 <= k < dim :: m.centroid[k] * (|left.reviewIds| as real + |right.reviewIds| as real)
               == left.centroid[k] * (|left.reviewIds| as real) + right.centroid[k] * (|right.reviewIds| as real)
    requires m.strength * (|left.reviewIds| as real + |right.reviewIds| as real)
             == left.strength * (|left.reviewIds| as real) + right.strength * (|right.reviewIds| as real)
    ensures MeanOver(m, vecOf, probOf, dim)
  {
    CentroidsConcat(left, right, m, vecOf, probOf, dim);
    StrengthConcat(left.reviewIds, right.reviewIds, probOf, m.strength, left.strength, right.strength);
  }

  lemma CentroidsConcat(left: ClusterSummary, right: ClusterSummary, m: ClusterSummary,
                        vecOf: string -> seq<real>, probOf: string -> real, dim: nat)
    requires MeanOver(left, vecOf, probOf, dim) && MeanOver(right, vecOf, probOf, dim)
    requires m.reviewIds == left.reviewIds + right.reviewIds && |m.centroid| == dim
    requires forall k | 0 <= k < dim :: m.centroid[k] * (|left.reviewIds| as real + |right.reviewIds| as real)
               == left.centroid[k] * (|left.reviewIds| as real) + right.centroid[k] * (|right.reviewIds| as real)
    ensures forall k | 0 <= k < dim ::
              m.centroid[k] * (|m.reviewIds| as real) == SumAt(Map(m.reviewIds, vecOf), k)
  {
    forall k | 0 <= k < dim
      ensures m.centroid[k] * (|m.reviewIds| as real) == SumAt(Map(m.reviewIds, vecOf), k)
    {
      CentroidConcat(left, right, m, vecOf, probOf, dim, k);
    }
  }

  lemma CentroidConcat(left: ClusterSummary, right: ClusterSummary, m: ClusterSummary,
                       vecOf: string -> seq<real>, probOf: string -> real, dim: nat, k: nat)
    requires MeanOver(left, vecOf, probOf, dim) && MeanOver(right, vecOf, probOf, dim)
    requires m.reviewIds == left.reviewIds + right.reviewIds && |m.centroid| == dim && k < dim
    requires m.centroid[k] * (|left.reviewIds| as real + |right.reviewIds| as real)
             == left.centroid[k] * (|left.reviewIds| as real) + right.centroid[k] * (|right.reviewIds| as real)
    ensures m.centroid[k] * (|m.reviewIds| as real) == SumAt(Map(m.reviewIds, vecOf), k)
  {
    var a, b := left.reviewIds, right.reviewIds;
    var x, y, z := m.centroid[k], left.centroid[k], right.centroid[k];
    assert y * (|a| as real) == SumAt(Map(a, vecOf), k);
    assert z * (|b| as real) == SumAt(Map(b, vecOf), k);
    ComponentConcat(a, b, vecOf, k, x, y, z);
  }

  /** The arithmetic step shared by centroids and strengths: a weighted
      mean times the total weight is the sum of the two weighted sums. */
  lemma WeightedTotal(x: real, y: real, z: real, la: real, lb: real, lab: real, sa: real, sb: real)
    requires x * (la + lb) == y * la + z * lb && y * la == sa && z * lb == sb && lab == la + lb
    ensures x * lab == sa + sb
  {
  }

  lemma SumAtOfConcat(a: seq<string>, b: seq<string>, vecOf: string -> seq<real>, k: nat)
    ensures SumAt(Map(a + b, vecOf), k) == SumAt(Map(a, vecOf), k) + SumAt(Map(b, vecOf), k)
  {
    VectorsOfConcat(a, b, vecOf);
    SumAtConcat(Map(a, vecOf), Map(b, vecOf), k);
  }

  lemma SumOfConcat(a: seq<string>, b: seq<string>, probOf: string -> real)
    ensures Sum(Map(a + b, probOf)) == Sum(Map(a, probOf)) + Sum(Map(b, probOf))
  {
    ProbsOfConcat(a, b, probOf);
    SumConcat(Map(a, probOf), Map(b, probOf));
  }

  lemma ComponentConcat(a: seq<string>, b: seq<string>, vecOf: string -> seq<real>, k: nat,
                        x: real, y: real, z: real)
    requires x * (|a| as real + |b| as real) == y * (|a| as real) + z * (|b| as real)
    requires y * (|a| as real) == SumAt(Map(a, vecOf), k)
    requires z * (|b| as real) == SumAt(Map(b, vecOf), k)
    ensures x * (|a + b| as real) == SumAt(Map(a + b, vecOf), k)
  {
    SumAtOfConcat(a, b, vecOf, k);
    WeightedTotal(x, y, z, |a| as real, |b| as real, |a + b| as real,
                  SumAt(Map(a, vecOf), k), SumAt(Map(b, vecOf), k));
  }

  lemma StrengthConcat(a: seq<string>, b: seq<string>, probOf: string -> real, x: real, y: real, z: real)
    requires x * (|a| as real + |b| as real) == y * (|a| as real) + z * (|b| as real)
    requires y * (|a| as real) == Sum(Map(a, probOf))
    requires z * (|b| as real) == Sum(Map(b, probOf))
    ensures x * (|a + b| as real) == Sum(Map(a + b, probOf))
  {
    SumOfConcat(a, b, probOf);
    WeightedTotal(x, y, z, |a| as real, |b| as real, |a + b| as real,
                  Sum(Map(a, probOf)), Sum(Map(b, probOf)));
  }

  /** Merging keeps the mean invariant: if both centroids and strengths are
      the means over their members, the merged ones are the means over the
      concatenated members. */
  lemma MergeMeanOver(left: ClusterSummary, right: ClusterSummary, newLabel: int,
                      vecOf: string -> seq<real>, probOf: string -> real, dim: nat)
    requires MeanOver(left, vecOf, probOf, dim) && MeanOver(right, vecOf, probOf, dim)
    ensures MeanOver(Merge(left, right, newLabel), vecOf, probOf, dim)
  {
    var m := Merge(left, right, newLabel);
    forall k | 0 <= k < dim
      ensures m.centroid[k] * (|left.reviewIds| as real + |right.reviewIds| as real)
              == left.centroid[k] * (|left.reviewIds| as real) + right.centroid[k] * (|right.reviewIds| as real)
    {
      MergeCentroid(left, right, newLabel, k);
    }
    MergeStrength(left, right, newLabel);
    MeanOverConcat(left, right, m, vecOf, probOf, dim);
  }

  lemma WeightedMeanBounds(x: real, y: real, ls: real, rs: real)
    requires ls >= 0.0 && rs >= 0.0 && ls + rs > 0.0
    requires 0.0 <= x <= 1.0 && 0.0 <= y <= 1.0
    ensures 0.0 <= (x * ls + y * rs) / (ls + rs) <= 1.0
  {
    var a, b := x * ls, y * rs;
    ScaleUnit(x, ls);
    assert a <= ls;
    ScaleUnit(y, rs);
    assert b <= rs;
    assert 0.0 <= a + b <= ls + rs;
    DivUnit(a + b, ls + rs);
  }

  lemma ScaleUnit(x: real, l: real)
    requires 0.0 <= x <= 1.0 && l >= 0.0
    ensures 0.0 <= x * l <= l
  {
    assert (1.0 - x) * l >= 0.0;
  }

  lemma DivUnit(n: real, t: real)
    requires 0.0 <= n <= t && t > 0.0
    ensures 0.0 <= n / t <= 1.0
  {
    assert (n / t) * t == n;
  }

  /** Strengths in [0, 1] stay in [0, 1] when merged. */
  lemma MergeStrengthBounds(left: ClusterSummary, right: ClusterSummary, newLabel: int)
    requires |left.reviewIds| + |right.reviewIds| > 0
    requires |left.centroid| == |right.centroid|
    requires 0.0 <= left.strength <= 1.0 && 0.0 <= right.strength <= 1.0
    ensures 0.0 <= Merge(left, right, newLabel).strength <= 1.0
  {
    var ls, rs := |left.reviewIds| as real, |right.reviewIds| as real;
    assert Merge(left, right, newLabel).strength == (left.strength * ls + right.strength * rs) / (ls + rs);
    WeightedMeanBounds(left.strength, right.strength, ls, rs);
  }

  // ---------------------------------------------------------------------
  // Removing the merged pair

  function Remove<T>(s: seq<T>, p: nat): (r: seq<T>)
    requires p < |s|
    ensures |r| == |s| - 1
    ensures forall t | 0 <= t < |r| :: r[t] == if t < p then s[t] else s[t + 1]
  {
    s[..p] + s[p + 1..]
  }

  /** `[c for k, c in enumerate(s) if k not in {i, j}]` */
  function Without<T>(s: seq<T>, i: nat, j: nat): (r: seq<T>)
    requires i < j < |s|
    ensures r == Remove(Remove(s, j), i)
    ensures |r| == |s| - 2
    ensures forall t | 0 <= t < |r| :: r[t] == s[if t < i then t else if t + 1 < j then t + 1 else t + 2]
  {
    s[..i] + s[i + 1..j] + s[j + 1..]
  }

  lemma AllIdsSnoc(cs: seq<ClusterSummary>, c: ClusterSummary)
    ensures AllIds(cs + [c]) == AllIds(cs) + c.reviewIds
  {
    assert (cs + [c])[..|cs|] == cs;
  }

  lemma AllIdsAround(a: seq<ClusterSummary>, x: ClusterSummary, b: seq<ClusterSummary>,
                      y: ClusterSummary, c: seq<ClusterSummary>)
    ensures AllIds(a + [x] + b + [y] + c) == AllIds(a) + x.reviewIds + AllIds(b) + y.reviewIds + AllIds(c)
  {
    AllIdsConcat(a + [x] + b + [y], c);
    AllIdsSnoc(a + [x] + b, y);
    AllIdsConcat(a + [x], b);
    AllIdsSnoc(a, x);
  }

  lemma AllIdsOfThree(a: seq<ClusterSummary>, b: seq<ClusterSummary>, c: seq<ClusterSummary>)
    ensures AllIds(a + b + c) == AllIds(a) + AllIds(b) + AllIds(c)
  {
    AllIdsConcat(a + b, c);
    AllIdsConcat(a, b);
  }

  /** Replacing clusters i and j by their merge keeps the multiset of
      review ids. */
  lemma AllIdsMergeStep(cs: seq<ClusterSummary>, i: nat, j: nat, newLabel: int)
    requires i < j < |cs|
    requires |cs[i].reviewIds| + |cs[j].reviewIds| > 0
    requires |cs[i].centroid| == |cs[j].centroid|
    ensures multiset(AllIds(Without(cs, i, j) + [Merge(cs[i], cs[j], newLabel)])) == multiset(AllIds(cs))
  {
    var m := Merge(cs[i], cs[j], newLabel);
    var a, b, c := cs[..i], cs[i + 1..j], cs[j + 1..];
    assert cs == a + [cs[i]] + b + [cs[j]] + c;
    assert Without(cs, i, j) == a + b + c;
    AllIdsSnoc(a + b + c, m);
    AllIdsOfThree(a, b, c);
    AllIdsAround(a, cs[i], b, cs[j], c);
    var sa, sb, sc := AllIds(a), AllIds(b), AllIds(c);
    var si, sj := cs[i].reviewIds, cs[j].reviewIds;
    assert AllIds(Without(cs, i, j) + [m]) == sa + sb + sc + (si + sj);
    assert AllIds(cs) == sa + si + sb + sj + sc;
    calc {
      multiset(sa + sb + sc + (si + sj));
      multiset(sa) + multiset(sb) + multiset(sc) + multiset(si) + multiset(sj);
      multiset(sa + si + sb + sj + sc);
    }
  }

  // ---------------------------------------------------------------------
  // The shape of the list while merging

  /** `cs` is the first `k` elements of `orig`'s subsequence at positions
      `f`, unchanged, followed by merged clusters whose labels increase and
      lie strictly between `lo` and `hi`. */
  ghost predicate Layout(cs: seq<ClusterSummary>, orig: seq<ClusterSummary>, k: nat, f: seq<nat>, lo: int, hi: int)
  {
    && k <= |cs|
    && SubseqBy(cs[..k], orig, f)
    && (forall t | k <= t < |cs| :: lo < cs[t].clusterLabel < hi)
    && (forall t, u | k <= t < u < |cs| :: cs[t].clusterLabel < cs[u].clusterLabel)
  }

  lemma LayoutStart(orig: seq<ClusterSummary>, lo: int)
    ensures Layout(orig, orig, |orig|, Identity(|orig|), lo, lo + 1)
  {
    assert orig[..|orig|] == orig;
  }

  lemma SubseqRemove<T>(xs: seq<T>, ys: seq<T>, f: seq<nat>, p: nat)
    requires SubseqBy(xs, ys, f) && p < |xs|
    ensures SubseqBy(Remove(xs, p), ys, Remove(f, p))
  {
    var g := Remove(f, p);
    forall t, u | 0 <= t < u < |g| ensures g[t] < g[u] {
      var t' := if t < p then t else t + 1;
      var u' := if u < p then u else u + 1;
      assert f[t'] < f[u'];
    }
  }

  lemma LayoutRemove(cs: seq<ClusterSummary>, orig: seq<ClusterSummary>, k: nat, f: seq<nat>,
                     lo: int, hi: int, p: nat)
    requires Layout(cs, orig, k, f, lo, hi) && p < |cs|
    ensures if p < k then Layout(Remove(cs, p), orig, k - 1, Remove(f, p), lo, hi)
            else Layout(Remove(cs, p), orig, k, f, lo, hi)
  {
    if p < k {
      LayoutRemoveOriginal(cs, orig, k, f, lo, hi, p);
    } else {
      LayoutRemoveMerged(cs, orig, k, f, lo, hi, p);
    }
  }

  /** Removing one of the original clusters. */
  lemma LayoutRemoveOriginal(cs: seq<ClusterSummary>, orig: seq<ClusterSummary>, k: nat, f: seq<nat>,
                             lo: int, hi: int, p: nat)
    requires Layout(cs, orig, k, f, lo, hi) && p < k
    ensures Layout(Remove(cs, p), orig, k - 1, Remove(f, p), lo, hi)
  {
    var r := Remove(cs, p);
    SubseqRemove(cs[..k], orig, f, p);
    assert r[..k - 1] == Remove(cs[..k], p);
    forall t, u | k - 1 <= t < u < |r| ensures r[t].clusterLabel < r[u].clusterLabel {
      assert r[t] == cs[t + 1] && r[u] == cs[u + 1];
    }
  }

  /** Removing one of the merged clusters. */
  lemma LayoutRemoveMerged(cs: seq<ClusterSummary>, orig: seq<ClusterSummary>, k: nat, f: seq<nat>,
                           lo: int, hi: int, p: nat)
    requires Layout(cs, orig, k, f, lo, hi) && k <= p < |cs|
    ensures Layout(Remove(cs, p), orig, k, f, lo, hi)
  {
    var r := Remove(cs, p);
    assert r[..k] == cs[..k];
    forall t, u | k <= t < u < |r| ensures r[t].clusterLabel < r[u].clusterLabel {
      var t' := if t < p then t else t + 1;
      var u' := if u < p then u else u + 1;
      assert r[t] == cs[t'] && r[u] == cs[u'];
    }
  }

  lemma LayoutAppend(cs: seq<ClusterSummary>, orig: seq<ClusterSummary>, k: nat, f: seq<nat>,
                     lo: int, hi: int, c: ClusterSummary)
    requires Layout(cs, orig, k, f, lo, hi) && lo < hi && c.clusterLabel == hi
    ensures Layout(cs + [c], orig, k, f, lo, hi + 1)
  {
    assert (cs + [c])[..k] == cs[..k];
  }

  predicate DistinctLabels(cs: seq<ClusterSummary>)
  {
    forall t, u | 0 <= t < u < |cs| :: cs[t].clusterLabel != cs[u].clusterLabel
  }

  /** A layout over distinct original labels no greater than `lo` has
      distinct labels. */
  lemma LayoutDistinct(cs: seq<ClusterSummary>, orig: seq<ClusterSummary>, k: nat, f: seq<nat>, lo: int, hi: int)
    requires Layout(cs, orig, k, f, lo, hi)
    requires DistinctLabels(orig)
    requires forall t | 0 <= t < |orig| :: orig[t].clusterLabel <= lo
    ensures DistinctLabels(cs)
  {
    forall t, u | 0 <= t < u < |cs| ensures cs[t].clusterLabel != cs[u].clusterLabel {
      if u < k {
        assert cs[t] == cs[..k][t] == orig[f[t]];
        assert cs[u] == cs[..k][u] == orig[f[u]];
        assert f[t] < f[u];
      } else if t < k {
        assert cs[t] == cs[..k][t] == orig[f[t]];
      }
    }
  }

  // ---------------------------------------------------------------------
  // Enforcing the limit

  /** `max(c.cluster_label for c in clusters)` */
  function MaxLabel(cs: seq<ClusterSummary>): (m: int)
    requires cs != []
    ensures forall t | 0 <= t < |cs| :: cs[t].clusterLabel <= m
    decreases |cs|
  {
    if |cs| == 1 then cs[0].clusterLabel
    else
      var m := MaxLabel(cs[..|cs| - 1]);
      var l := cs[|cs| - 1].clusterLabel;
      assert forall t | 0 <= t < |cs| - 1 :: cs[t] == cs[..|cs| - 1][t];
      if l > m then l else m
  }

  /** `max()` returns one of the labels. */
  lemma {:induction false} MaxLabelAttained(cs: seq<ClusterSummary>)
    requires cs != []
    ensures exists t | 0 <= t < |cs| :: cs[t].clusterLabel == MaxLabel(cs)
    decreases |cs|
  {
    if |cs| > 1 {
      MaxLabelAttained(cs[..|cs| - 1]);
      var t :| 0 <= t < |cs| - 1 && cs[..|cs| - 1][t].clusterLabel == MaxLabel(cs[..|cs| - 1]);
      if cs[|cs| - 1].clusterLabel <= MaxLabel(cs[..|cs| - 1]) {
        assert cs[t] == cs[..|cs| - 1][t];
        assert cs[t].clusterLabel == MaxLabel(cs);
      } else {
        assert cs[|cs| - 1].clusterLabel == MaxLabel(cs);
      }
    } else {
      assert cs[0].clusterLabel == MaxLabel(cs);
    }
  }

  predicate NonEmptyMembers(cs: seq<ClusterSummary>)
  {
    forall t | 0 <= t < |cs| :: cs[t].reviewIds != []
  }

  ghost predicate AllMeanOver(cs: seq<ClusterSummary>, vecOf: string -> seq<real>, probOf: string -> real, dim: nat)
  {
    forall t | 0 <= t < |cs| :: MeanOver(cs[t], vecOf, probOf, dim)
  }

  predicate UnitStrengths(cs: seq<ClusterSummary>)
  {
    forall t | 0 <= t < |cs| :: 0.0 <= cs[t].strength <= 1.0
  }

  lemma StepNonEmpty(cs: seq<ClusterSummary>, i: nat, j: nat, m: ClusterSummary)
    requires i < j < |cs| && NonEmptyMembers(cs) && m.reviewIds != []
    ensures NonEmptyMembers(Without(cs, i, j) + [m])
  {
  }

  lemma StepSameDim(cs: seq<ClusterSummary>, dim: nat, i: nat, j: nat, m: ClusterSummary)
    requires i < j < |cs| && SameDim(cs, dim) && |m.centroid| == dim
    ensures SameDim(Without(cs, i, j) + [m], dim)
  {
  }

  lemma StepMeanOver(cs: seq<ClusterSummary>, vecOf: string -> seq<real>, probOf: string -> real, dim: nat,
                     i: nat, j: nat, m: ClusterSummary)
    requires i < j < |cs| && AllMeanOver(cs, vecOf, probOf, dim) && MeanOver(m, vecOf, probOf, dim)
    ensures AllMeanOver(Without(cs, i, j) + [m], vecOf, probOf, dim)
  {
    var r := Without(cs, i, j) + [m];
    forall t | 0 <= t < |r| ensures MeanOver(r[t], vecOf, probOf, dim) {
      if t < |r| - 1 {
        assert r[t] == Without(cs, i, j)[t];
      }
    }
  }

  lemma StepUnit(cs: seq<ClusterSummary>, i: nat, j: nat, m: ClusterSummary)
    requires i < j < |cs| && UnitStrengths(cs) && 0.0 <= m.strength <= 1.0
    ensures UnitStrengths(Without(cs, i, j) + [m])
  {
  }

  lemma StepLayout(cs: seq<ClusterSummary>, orig: seq<ClusterSummary>, kept: nat, from: seq<nat>,
                   lo: int, hi: int, i: nat, j: nat, m: ClusterSummary)
    returns (kept': nat, from': seq<nat>)
    requires Layout(cs, orig, kept, from, lo, hi) && i < j < |cs| && lo < hi && m.clusterLabel == hi
    ensures Layout(Without(cs, i, j) + [m], orig, kept', from', lo, hi + 1)
  {
    LayoutRemove(cs, orig, kept, from, lo, hi, j);
    var kept1 := if j < kept then kept - 1 else kept;
    var from1 := if j < kept then Remove(from, j) else from;
    LayoutRemove(Remove(cs, j), orig, kept1, from1, lo, hi, i);
    kept' := if i < kept1 then kept1 - 1 else kept1;
    from' := if i < kept1 then Remove(from1, i) else from1;
    LayoutAppend(Without(cs, i, j), orig, kept', from', lo, hi, m);
  }

  /** One turn of the loop of `ThemeLimiter.enforce`: the most similar pair
      of `cs` removed and their merge, labelled `nextLabel`, appended. */
  ghost function Step(cs: seq<ClusterSummary>, norm: seq<real> -> real, dim: nat, nextLabel: int)
    : (next: seq<ClusterSummary>)
    requires NonEmptyMembers(cs) && SameDim(cs, dim) && |cs| >= 2
    ensures |next| == |cs| - 1 && next[|next| - 1].clusterLabel == nextLabel
  {
    var p := BestPair(cs, norm, dim);
    Without(cs, p.0, p.1) + [Merge(cs[p.0], cs[p.1], nextLabel)]
  }

  /** A turn keeps the clusters non-empty, of one dimension, and with the
      same review ids. */
  lemma StepFacts(cs: seq<ClusterSummary>, norm: seq<real> -> real, dim: nat, nextLabel: int)
    requires NonEmptyMembers(cs) && SameDim(cs, dim) && |cs| >= 2
    ensures NonEmptyMembers(Step(cs, norm, dim, nextLabel)) && SameDim(Step(cs, norm, dim, nextLabel), dim)
    ensures multiset(AllIds(Step(cs, norm, dim, nextLabel))) == multiset(AllIds(cs))
  {
    var p := BestPair(cs, norm, dim);
    var merged := Merge(cs[p.0], cs[p.1], nextLabel);
    StepNonEmpty(cs, p.0, p.1, merged);
    StepSameDim(cs, dim, p.0, p.1, merged);
    AllIdsMergeStep(cs, p.0, p.1, nextLabel);
  }

  /** The clusters the `while` loop of `ThemeLimiter.enforce` ends with
      when it starts from `cs` and gives the next merged cluster the label
      `nextLabel`, or the `IndexError` it raises when fewer than two
      clusters are left while the limit is still exceeded. */
  ghost function Reduce(cs: seq<ClusterSummary>, maxThemes: int, norm: seq<real> -> real, dim: nat,
                        nextLabel: int): Result<seq<ClusterSummary>>
    requires NonEmptyMembers(cs) && SameDim(cs, dim)
    decreases |cs|
  {
    if |cs| <= maxThemes then Ok(cs)
    else if BestPair(cs, norm, dim).1 >= |cs| then Err("IndexError: list index out of range")
    else
      StepFacts(cs, norm, dim, nextLabel);
      Reduce(Step(cs, norm, dim, nextLabel), maxThemes, norm, dim, nextLabel + 1)
  }

  /** `ThemeLimiter.enforce` on `list(clustering.summaries.values())`:
      the clusters unchanged when there are at most `maxThemes` of them,
      the `ValueError` of `max()` over no labels, or the merging loop
      starting with the label after the largest one. */
  ghost function Enforced(summaries: seq<ClusterSummary>, maxThemes: int, norm: seq<real> -> real, dim: nat)
    : Result<seq<ClusterSummary>>
    requires NonEmptyMembers(summaries) && SameDim(summaries, dim)
  {
    if |summaries| <= maxThemes then Ok(summaries)
    else if summaries == [] then Err("ValueError: max() arg is an empty sequence")
    else Reduce(summaries, maxThemes, norm, dim, MaxLabel(summaries) + 1)
  }

  /** One turn of the loop: the outcome from `cs` is the outcome from the
      list after merging its most similar pair. */
  lemma ReduceUnfold(cs: seq<ClusterSummary>, maxThemes: int, norm: seq<real> -> real, dim: nat, nextLabel: int)
    requires NonEmptyMembers(cs) && SameDim(cs, dim) && |cs| > maxThemes && |cs| >= 2
    ensures NonEmptyMembers(Step(cs, norm, dim, nextLabel)) && SameDim(Step(cs, norm, dim, nextLabel), dim)
    ensures Reduce(cs, maxThemes, norm, dim, nextLabel)
         == Reduce(Step(cs, norm, dim, nextLabel), maxThemes, norm, dim, nextLabel + 1)
  {
    StepFacts(cs, norm, dim, nextLabel);
  }

  /** The loop stops with exactly `maxThemes` clusters when that is at
      least 1, and raises otherwise. */
  lemma {:induction false} ReduceOutcome(cs: seq<ClusterSummary>, maxThemes: int, norm: seq<real> -> real,
                                         dim: nat, nextLabel: int)
    requires cs != [] && NonEmptyMembers(cs) && SameDim(cs, dim)
    ensures |cs| <= maxThemes ==> Reduce(cs, maxThemes, norm, dim, nextLabel) == Ok(cs)
    ensures |cs| > maxThemes ==> (Reduce(cs, maxThemes, norm, dim, nextLabel).Ok? <==> maxThemes >= 1)
    ensures |cs| > maxThemes && maxThemes >= 1 ==> |Reduce(cs, maxThemes, norm, dim, nextLabel).value| == maxThemes
    decreases |cs|
  {
    if |cs| > maxThemes && |cs| >= 2 {
      ReduceUnfold(cs, maxThemes, norm, dim, nextLabel);
      ReduceOutcome(Step(cs, norm, dim, nextLabel), maxThemes, norm, dim, nextLabel + 1);
    }
  }

  /** The loop keeps every review id and keeps the clusters non-empty and
      of one dimension. */
  lemma {:induction false} ReduceKeepsIds(cs: seq<ClusterSummary>, maxThemes: int, norm: seq<real> -> real,
                                          dim: nat, nextLabel: int)
    requires NonEmptyMembers(cs) && SameDim(cs, dim)
    ensures var r := Reduce(cs, maxThemes, norm, dim, nextLabel);
            r.Ok? ==> && multiset(AllIds(r.value)) == multiset(AllIds(cs))
                      && NonEmptyMembers(r.value) && SameDim(r.value, dim)
    decreases |cs|
  {
    if |cs| > maxThemes && |cs| >= 2 {
      StepFacts(cs, norm, dim, nextLabel);
      ReduceUnfold(cs, maxThemes, norm, dim, nextLabel);
      ReduceKeepsIds(Step(cs, norm, dim, nextLabel), maxThemes, norm, dim, nextLabel + 1);
    }
  }

  /** The loop keeps every cluster the probability-weighted mean of its
      members' vectors. */
  lemma {:induction false} ReduceKeepsMeans(cs: seq<ClusterSummary>, maxThemes: int, norm: seq<real> -> real,
                                            dim: nat, nextLabel: int, vecOf: string -> seq<real>, probOf: string -> real)
    requires NonEmptyMembers(cs) && SameDim(cs, dim) && AllMeanOver(cs, vecOf, probOf, dim)
    ensures var r := Reduce(cs, maxThemes, norm, dim, nextLabel);
            r.Ok? ==> AllMeanOver(r.value, vecOf, probOf, dim)
    decreases |cs|
  {
    if |cs| > maxThemes && |cs| >= 2 {
      var p := BestPair(cs, norm, dim);
      MergeMeanOver(cs[p.0], cs[p.1], nextLabel, vecOf, probOf, dim);
      StepMeanOver(cs, vecOf, probOf, dim, p.0, p.1, Merge(cs[p.0], cs[p.1], nextLabel));
      ReduceUnfold(cs, maxThemes, norm, dim, nextLabel);
      ReduceKeepsMeans(Step(cs, norm, dim, nextLabel), maxThemes, norm, dim, nextLabel + 1, vecOf, probOf);
    }
  }

  /** The loop keeps every strength in [0, 1]. */
  lemma {:induction false} ReduceKeepsUnit(cs: seq<ClusterSummary>, maxThemes: int, norm: seq<real> -> real,
                                           dim: nat, nextLabel: int)
    requires NonEmptyMembers(cs) && SameDim(cs, dim) && UnitStrengths(cs)
    ensures var r := Reduce(cs, maxThemes, norm, dim, nextLabel);
            r.Ok? ==> UnitStrengths(r.value)
    decreases |cs|
  {
    if |cs| > maxThemes && |cs| >= 2 {
      var p := BestPair(cs, norm, dim);
      MergeStrengthBounds(cs[p.0], cs[p.1], nextLabel);
      StepUnit(cs, p.0, p.1, Merge(cs[p.0], cs[p.1], nextLabel));
      ReduceUnfold(cs, maxThemes, norm, dim, nextLabel);
      ReduceKeepsUnit(Step(cs, norm, dim, nextLabel), maxThemes, norm, dim, nextLabel + 1);
    }
  }

  /** The merge the loop does last carries the largest label it gives. */
  lemma {:induction false} ReduceLastLabel(cs: seq<ClusterSummary>, maxThemes: int, norm: seq<real> -> real,
                                           dim: nat, nextLabel: int)
    requires NonEmptyMembers(cs) && SameDim(cs, dim) && cs != []
    ensures var r := Reduce(cs, maxThemes, norm, dim, nextLabel);
            r.Ok? && |r.value| < |cs| ==>
              r.value != [] && r.value[|r.value| - 1].clusterLabel == nextLabel + (|cs| - |r.value|) - 1
    decreases |cs|
  {
    if |cs| > maxThemes && |cs| >= 2 {
      ReduceUnfold(cs, maxThemes, norm, dim, nextLabel);
      var next := Step(cs, norm, dim, nextLabel);
      ReduceLastLabel(next, maxThemes, norm, dim, nextLabel + 1);
      ReduceOutcome(next, maxThemes, norm, dim, nextLabel + 1);
    }
  }

  /** The loop keeps the untouched clusters of `orig` in their order, in
      front of merged clusters with increasing labels above `lo`. */
  lemma {:induction false} ReduceKeepsLayout(cs: seq<ClusterSummary>, maxThemes: int, norm: seq<real> -> real,
                                             dim: nat, nextLabel: int,
                                             orig: seq<ClusterSummary>, kept: nat, from: seq<nat>, lo: int)
    returns (kept': nat, from': seq<nat>)
    requires NonEmptyMembers(cs) && SameDim(cs, dim)
    requires Layout(cs, orig, kept, from, lo, nextLabel) && lo < nextLabel
    ensures var r := Reduce(cs, maxThemes, norm, dim, nextLabel);
            r.Ok? ==> Layout(r.value, orig, kept', from', lo, nextLabel + (|cs| - |r.value|))
    decreases |cs|
  {
    if |cs| > maxThemes && |cs| >= 2 {
      var p := BestPair(cs, norm, dim);
      var kept1, from1 := StepLayout(cs, orig, kept, from, lo, nextLabel, p.0, p.1, Merge(cs[p.0], cs[p.1], nextLabel));
      ReduceUnfold(cs, maxThemes, norm, dim, nextLabel);
      kept', from' := ReduceKeepsLayout(Step(cs, norm, dim, nextLabel), maxThemes, norm, dim, nextLabel + 1,
                                        orig, kept1, from1, lo);
    } else {
      kept', from' := kept, from;
    }
  }

  /** At most `maxThemes` clusters are returned unchanged; more are merged
      down to exactly `maxThemes` when that is at least 1, and `enforce`
      raises otherwise. */
  lemma EnforcedOutcome(summaries: seq<ClusterSummary>, maxThemes: int, norm: seq<real> -> real, dim: nat)
    requires NonEmptyMembers(summaries) && SameDim(summaries, dim)
    ensures var r := Enforced(summaries, maxThemes, norm, dim);
            && (|summaries| <= maxThemes ==> r == Ok(summaries))
            && (|summaries| > maxThemes ==> (r.Ok? <==> maxThemes >= 1))
            && (|summaries| > maxThemes && r.Ok? ==> |r.value| == maxThemes)
  {
    if |summaries| > maxThemes && summaries != [] {
      ReduceOutcome(summaries, maxThemes, norm, dim, MaxLabel(summaries) + 1);
    }
  }

  /** What merging keeps of `summaries` in `r`: every review id, non-empty
      members of one dimension, distinct labels, the mean invariant and
      strengths in [0, 1]. */
  ghost predicate Preserved(summaries: seq<ClusterSummary>, r: seq<ClusterSummary>,
                            dim: nat, vecOf: string -> seq<real>, probOf: string -> real)
  {
    && multiset(AllIds(r)) == multiset(AllIds(summaries))
    && NonEmptyMembers(r) && SameDim(r, dim)
    && (DistinctLabels(summaries) ==> DistinctLabels(r))
    && (AllMeanOver(summaries, vecOf, probOf, dim) ==> AllMeanOver(r, vecOf, probOf, dim))
    && (UnitStrengths(summaries) ==> UnitStrengths(r))
  }

  /** The loop's result when it runs: the untouched clusters in their
      original order followed by `merges` merged ones, labelled upwards
      from `top + 1`, the last of them `top + merges`. */
  ghost predicate MergedLayout(summaries: seq<ClusterSummary>, r: seq<ClusterSummary>, top: int, merges: nat,
                               kept: nat, from: seq<nat>)
  {
    && r != []
    && Layout(r, summaries, kept, from, top, top + merges + 1)
    && r[|r| - 1].clusterLabel == top + merges
  }

  /** The loop over distinct labels, all at most `top`, keeps them distinct. */
  lemma ReduceKeepsDistinct(cs: seq<ClusterSummary>, maxThemes: int, norm: seq<real> -> real, dim: nat, nextLabel: int)
    requires NonEmptyMembers(cs) && SameDim(cs, dim)
    requires DistinctLabels(cs) && forall t | 0 <= t < |cs| :: cs[t].clusterLabel < nextLabel
    ensures var r := Reduce(cs, maxThemes, norm, dim, nextLabel);
            r.Ok? ==> DistinctLabels(r.value)
  {
    var r := Reduce(cs, maxThemes, norm, dim, nextLabel);
    LayoutStart(cs, nextLabel - 1);
    var kept, from := ReduceKeepsLayout(cs, maxThemes, norm, dim, nextLabel,
                                        cs, |cs|, Identity(|cs|), nextLabel - 1);
    if r.Ok? {
      LayoutDistinct(r.value, cs, kept, from, nextLabel - 1, nextLabel + (|cs| - |r.value|));
    }
  }

  lemma ReducePreserved(cs: seq<ClusterSummary>, maxThemes: int, norm: seq<real> -> real,
                        dim: nat, nextLabel: int, vecOf: string -> seq<real>, probOf: string -> real)
    requires NonEmptyMembers(cs) && SameDim(cs, dim)
    requires forall t | 0 <= t < |cs| :: cs[t].clusterLabel < nextLabel
    ensures var r := Reduce(cs, maxThemes, norm, dim, nextLabel);
            r.Ok? ==> Preserved(cs, r.value, dim, vecOf, probOf)
  {
    ReduceKeepsIds(cs, maxThemes, norm, dim, nextLabel);
    if AllMeanOver(cs, vecOf, probOf, dim) {
      ReduceKeepsMeans(cs, maxThemes, norm, dim, nextLabel, vecOf, probOf);
    }
    if UnitStrengths(cs) {
      ReduceKeepsUnit(cs, maxThemes, norm, dim, nextLabel);
    }
    if DistinctLabels(cs) {
      ReduceKeepsDistinct(cs, maxThemes, norm, dim, nextLabel);
    }
  }

  lemma ReduceMergedLayout(cs: seq<ClusterSummary>, maxThemes: int, norm: seq<real> -> real, dim: nat, top: int)
    returns (kept: nat, from: seq<nat>)
    requires cs != [] && NonEmptyMembers(cs) && SameDim(cs, dim)
    requires |cs| > maxThemes
    ensures var r := Reduce(cs, maxThemes, norm, dim, top + 1);
            r.Ok? ==> MergedLayout(cs, r.value, top, |cs| - maxThemes, kept, from)
  {
    LayoutStart(cs, top);
    kept, from := ReduceKeepsLayout(cs, maxThemes, norm, dim, top + 1, cs, |cs|, Identity(|cs|), top);
    ReduceOutcome(cs, maxThemes, norm, dim, top + 1);
    ReduceLastLabel(cs, maxThemes, norm, dim, top + 1);
  }

  /** Merging keeps every review id, keeps the clusters non-empty, of one
      dimension, with their means, strengths in [0, 1] and distinct labels;
      and the result is the untouched clusters in their original order
      followed by the merged ones, labelled upwards from the largest
      original label plus one. `kept` and `from` witness that layout. */
  lemma EnforcedFacts(summaries: seq<ClusterSummary>, maxThemes: int, norm: seq<real> -> real,
                      dim: nat, vecOf: string -> seq<real>, probOf: string -> real)
    returns (kept: nat, from: seq<nat>)
    requires NonEmptyMembers(summaries) && SameDim(summaries, dim)
    ensures var r := Enforced(summaries, maxThemes, norm, dim);
            r.Ok? ==> Preserved(summaries, r.value, dim, vecOf, probOf)
    ensures var r := Enforced(summaries, maxThemes, norm, dim);
            r.Ok? && |summaries| > maxThemes ==>
              MergedLayout(summaries, r.value, MaxLabel(summaries), |summaries| - maxThemes, kept, from)
  {
    if |summaries| <= maxThemes {
      kept, from := |summaries|, Identity(|summaries|);
    } else if summaries == [] {
      kept, from := 0, [];
    } else {
      var top := MaxLabel(summaries);
      assert Enforced(summaries, maxThemes, norm, dim) == Reduce(summaries, maxThemes, norm, dim, top + 1);
      ReducePreserved(summaries, maxThemes, norm, dim, top + 1, vecOf, probOf);
      kept, from := ReduceMergedLayout(summaries, maxThemes, norm, dim, top);
    }
  }

  /** `ThemeLimiter.enforce` on `list(clustering.summaries.values())`;
      `dim` is the common dimension of the centroids. */
  method Enforce(summaries: seq<ClusterSummary>, maxThemes: int, norm: seq<real> -> real, ghost dim: nat)
    returns (r: Result<seq<ClusterSummary>>)
    requires NonEmptyMembers(summaries) && SameDim(summaries, dim)
    ensures r == Enforced(summaries, maxThemes, norm, dim)
  {
    if |summaries| <= maxThemes {
      return Ok(summaries);
    }
    if summaries == [] {
      return Err("ValueError: max() arg is an empty sequence");
    }
    var clusters := summaries;
    var nextLabel := MaxLabel(summaries) + 1;
    while |clusters| > maxThemes
      invariant NonEmptyMembers(clusters) && SameDim(clusters, dim)
      invariant Reduce(clusters, maxThemes, norm, dim, nextLabel) == Enforced(summaries, maxThemes, norm, dim)
      decreases |clusters|
    {
      var i, j := FindMostSimilarPair(clusters, norm, dim);
      if j >= |clusters| {
        return Err("IndexError: list index out of range");
      }
      var merged := Merge(clusters[i], clusters[j], nextLabel);
      ReduceUnfold(clusters, maxThemes, norm, dim, nextLabel);
      clusters := Without(clusters, i, j) + [merged];
      nextLabel := nextLabel + 1;
    }
    r := Ok(clusters);
  }
}
