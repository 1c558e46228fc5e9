/** Embedding vectors for reviews and their cache (src/layer2/embeddings.py).
    The sentence encoder is the parameter `encode`, SHA-256 the parameter
    `digest`; the cache file is the sequence of maps `flush` wrote. */
module Embeddings {
  import opened Common
  import opened Validator

  /** Review ids with one vector per id, in the same order. */
  datatype EmbeddingBatch = EmbeddingBatch(reviewIds: seq<string>, vectors: seq<seq<real>>)

  /** `EmbeddingCache`: vectors by cache key. */
  class EmbeddingCache {
    var data: map<string, seq<real>>
    /** The dictionaries `flush` wrote to the cache file, oldest first. */
    var written: seq<map<string, seq<real>>>

    /** `EmbeddingCache(path)`: the dictionary read from the file when there
        is one, an empty one otherwise. */
    constructor(stored: Option<map<string, seq<real>>>)
      ensures data == (if stored.Some? then stored.value else map[])
      ensures written == []
    {
      data := if stored.Some? then stored.value else map[];
      written := [];
    }

    /** `get`: the stored vector, or `None` for an absent key. */
    method Get(key: string) returns (r: Option<seq<real>>)
      ensures key in data ==> r == Some(data[key])
      ensures key !in data ==> r == None
    {
      if key in data {
        r := Some(data[key]);
      } else {
        r := None;
      }
    }

    /** `set`: stores `vector` under `key`; every other key keeps its vector. */
    method Set(key: string, vector: seq<real>)
      modifies this
      ensures data == old(data)[key := vector]
      ensures written == old(written)
    {
      data := data[key := vector];
    }

    /** `flush`: writes the whole dictionary to the cache file. */
    method Flush()
      modifies this
      ensures data == old(data)
      ensures written == old(written) + [data]
    {
      written := written + [data];
    }
  }

  /** `_cache_key`: the review id, a colon and the digest of the text. */
  function CacheKey(review: ReviewModel, digest: string -> string): string
  {
    review.reviewId + ":" + digest(review.text)
  }

  /** Two reviews whose ids hold no colon have the same key only when they
      have the same id and the same digest. */
  lemma CacheKeyInjective(a: ReviewModel, b: ReviewModel, digest: string -> string)
    requires ':' !in a.reviewId && ':' !in b.reviewId
    requires CacheKey(a, digest) == CacheKey(b, digest)
    ensures a.reviewId == b.reviewId && digest(a.text) == digest(b.text)
  {
    var ka := CacheKey(a, digest);
    var kb := CacheKey(b, digest);
    assert forall i | 0 <= i < |a.reviewId| :: ka[i] == a.reviewId[i] != ':';
    assert forall i | 0 <= i < |b.reviewId| :: kb[i] == b.reviewId[i] != ':';
    assert ka[|a.reviewId|] == ':' && kb[|b.reviewId|] == ':';
    assert |a.reviewId| == |b.reviewId|;
    assert a.reviewId == ka[..|a.reviewId|];
    assert digest(a.text) == ka[|a.reviewId| + 1..];
  }

  /** The positions of the reviews whose key is not cached, increasing. */
  function Misses(reviews: seq<ReviewModel>, data: map<string, seq<real>>, digest: string -> string): (m: seq<nat>)
    ensures forall t | 0 <= t < |m| :: m[t] < |reviews| && CacheKey(reviews[m[t]], digest) !in data
    ensures forall t, u | 0 <= t < u < |m| :: m[t] < m[u]
    decreases |reviews|
  {
    if reviews == [] then []
    else
      var n := |reviews| - 1;
      var init := Misses(reviews[..n], data, digest);
      assert forall i | 0 <= i < n :: reviews[..n][i] == reviews[i];
      if CacheKey(reviews[n], digest) in data then init else init + [n]
  }

  /** Every review whose key is not cached is a miss. */
  lemma {:induction false} MissesComplete(reviews: seq<ReviewModel>, data: map<string, seq<real>>, digest: string -> string)
    ensures forall i | 0 <= i < |reviews| && CacheKey(reviews[i], digest) !in data :: i in Misses(reviews, data, digest)
    decreases |reviews|
  {
    if reviews != [] {
      var n := |reviews| - 1;
      MissesComplete(reviews[..n], data, digest);
      MissesSnoc(reviews, data, digest, n);
      assert reviews[..n + 1] == reviews;
      forall i | 0 <= i < n
        ensures reviews[..n][i] == reviews[i]
      {
      }
    }
  }

  lemma MissesSnoc(reviews: seq<ReviewModel>, data: map<string, seq<real>>, digest: string -> string, idx: nat)
    requires idx < |reviews|
    ensures Misses(reviews[..idx + 1], data, digest)
         == Misses(reviews[..idx], data, digest) + (if CacheKey(reviews[idx], digest) in data then [] else [idx])
  {
    assert reviews[..idx + 1][..idx] == reviews[..idx];
  }

  /** The texts sent to the encoder: those of the misses, in input order. */
  function PendingTexts(reviews: seq<ReviewModel>, m: seq<nat>): (r: seq<string>)
    requires forall t | 0 <= t < |m| :: m[t] < |reviews|
    ensures |r| == |m|
  {
    seq(|m|, t requires 0 <= t < |m| => reviews[m[t]].text)
  }

  /** The keys of the misses, in input order. */
  function PendingKeys(reviews: seq<ReviewModel>, m: seq<nat>, digest: string -> string): (r: seq<string>)
    requires forall t | 0 <= t < |m| :: m[t] < |reviews|
    ensures |r| == |m|
  {
    seq(|m|, t requires 0 <= t < |m| => CacheKey(reviews[m[t]], digest))
  }

  /** `data` after `set(keys[k], vs[k])` for `k` below `count`, in order. */
  function StoreAll(data: map<string, seq<real>>, keys: seq<string>, vs: seq<seq<real>>, count: nat)
    : map<string, seq<real>>
    requires count <= |keys| && count <= |vs|
    decreases count
  {
    if count == 0 then data else StoreAll(data, keys, vs, count - 1)[keys[count - 1] := vs[count - 1]]
  }

  /** Storing adds exactly the stored keys; a key not stored keeps its
      vector, and a stored key holds the vector of its last store. */
  lemma {:induction false} StoreAllFacts(data: map<string, seq<real>>, keys: seq<string>, vs: seq<seq<real>>, count: nat)
    requires count <= |keys| && count <= |vs|
    ensures StoreAll(data, keys, vs, count).Keys == data.Keys + set k | 0 <= k < count :: keys[k]
    ensures forall key | key in data && key !in keys[..count] :: StoreAll(data, keys, vs, count)[key] == data[key]
    ensures forall k | 0 <= k < count && (forall j | k < j < count :: keys[j] != keys[k]) ::
              StoreAll(data, keys, vs, count)[keys[k]] == vs[k]
    decreases count
  {
    if count > 0 {
      StoreAllFacts(data, keys, vs, count - 1);
      var last := keys[count - 1];
      assert StoreAll(data, keys, vs, count) == StoreAll(data, keys, vs, count - 1)[last := vs[count - 1]];
      assert keys[..count] == keys[..count - 1] + [last];
      assert (set k | 0 <= k < count :: keys[k]) == (set k | 0 <= k < count - 1 :: keys[k]) + {last};
      forall k | 0 <= k < count && (forall j | k < j < count :: keys[j] != keys[k])
        ensures StoreAll(data, keys, vs, count)[keys[k]] == vs[k]
      {
        if k < count - 1 {
          assert keys[count - 1] != keys[k];
          assert forall j | k < j < count - 1 :: keys[j] != keys[k];
        }
      }
    }
  }

  function Ids(reviews: seq<ReviewModel>): (r: seq<string>)
    ensures |r| == |reviews| && forall i | 0 <= i < |reviews| :: r[i] == reviews[i].reviewId
  {
    seq(|reviews|, i requires 0 <= i < |reviews| => reviews[i].reviewId)
  }

  /** The texts and the (position, key) pairs of the misses `m`, in order. */
  ghost predicate PendingOf(reviews: seq<ReviewModel>, m: seq<nat>, digest: string -> string,
                            pendingTexts: seq<string>, pendingIndices: seq<(nat, string)>)
  {
    && (forall t | 0 <= t < |m| :: m[t] < |reviews|)
    && pendingTexts == PendingTexts(reviews, m)
    && |pendingIndices| == |m|
    && forall t | 0 <= t < |m| :: pendingIndices[t] == (m[t], CacheKey(reviews[m[t]], digest))
  }

  /** `collected` holds, by position, the cached vector of every review
      among the first `n` whose key is cached, and nothing else. */
  ghost predicate CollectedOf(reviews: seq<ReviewModel>, n: nat, data: map<string, seq<real>>,
                              digest: string -> string, collected: map<nat, seq<real>>)
    requires n <= |reviews|
  {
    && (forall i | i in collected :: 0 <= i < n && CacheKey(reviews[i], digest) in data)
    && (forall i | 0 <= i < n && CacheKey(reviews[i], digest) in data :: i in collected)
    && (forall i | i in collected :: collected[i] == data[CacheKey(reviews[i], digest)])
  }

  /** A miss extends the pending texts and pairs. */
  lemma PendingStep(reviews: seq<ReviewModel>, m: seq<nat>, digest: string -> string,
                    pendingTexts: seq<string>, pendingIndices: seq<(nat, string)>, idx: nat)
    requires PendingOf(reviews, m, digest, pendingTexts, pendingIndices) && idx < |reviews|
    ensures PendingOf(reviews, m + [idx], digest, pendingTexts + [reviews[idx].text],
                      pendingIndices + [(idx, CacheKey(reviews[idx], digest))])
  {
    assert PendingTexts(reviews, m + [idx]) == pendingTexts + [reviews[idx].text];
  }

  /** A hit is collected; a miss leaves the collected vectors alone. */
  lemma CollectedStep(reviews: seq<ReviewModel>, idx: nat, data: map<string, seq<real>>,
                      digest: string -> string, collected: map<nat, seq<real>>)
    requires idx < |reviews| && CollectedOf(reviews, idx, data, digest, collected)
    ensures var key := CacheKey(reviews[idx], digest);
            CollectedOf(reviews, idx + 1, data, digest,
                        if key in data then collected[idx := data[key]] else collected)
  {
  }

  /** The first loop of `embed_reviews`: the vectors of the cached reviews
      by position, and the texts and (position, key) pairs of the misses, in
      input order. */
  method LookUpAll(cache: EmbeddingCache, reviews: seq<ReviewModel>, digest: string -> string)
    returns (pendingTexts: seq<string>, pendingIndices: seq<(nat, string)>, collected: map<nat, seq<real>>)
    ensures PendingOf(reviews, Misses(reviews, cache.data, digest), digest, pendingTexts, pendingIndices)
    ensures CollectedOf(reviews, |reviews|, cache.data, digest, collected)
  {
    pendingTexts := [];
    pendingIndices := [];
    collected := map[];
    for idx := 0 to |reviews|
      invariant PendingOf(reviews, Misses(reviews[..idx], cache.data, digest), digest, pendingTexts, pendingIndices)
      invariant CollectedOf(reviews, idx, cache.data, digest, collected)
    {
      MissesSnoc(reviews, cache.data, digest, idx);
      CollectedStep(reviews, idx, cache.data, digest, collected);
      var cacheKey := CacheKey(reviews[idx], digest);
      var cachedVector := cache.Get(cacheKey);
      if cachedVector.Some? {
        collected := collected[idx := cachedVector.value];
        continue;
      }
      PendingStep(reviews, Misses(reviews[..idx], cache.data, digest), digest, pendingTexts, pendingIndices, idx);
      pendingTexts := pendingTexts + [reviews[idx].text];
      pendingIndices := pendingIndices + [(idx, cacheKey)];
    }
    assert reviews[..|reviews|] == reviews;
  }

  /** The last step of `embed_reviews`: ids and vectors in the order of
      `sorted(collected)`, which is every position of `reviews`. */
  method InOrder(reviews: seq<ReviewModel>, collected: map<nat, seq<real>>)
    returns (reviewIds: seq<string>, vectors: seq<seq<real>>)
    requires forall i | 0 <= i < |reviews| :: i in collected
    ensures reviewIds == Ids(reviews)
    ensures |vectors| == |reviews| && forall i | 0 <= i < |reviews| :: vectors[i] == collected[i]
  {
    reviewIds := [];
    vectors := [];
    for t := 0 to |reviews|
      invariant reviewIds == Ids(reviews[..t])
      invariant |vectors| == t && forall i | 0 <= i < t :: vectors[i] == collected[i]
    {
      reviewIds := reviewIds + [reviews[t].reviewId];
      vectors := vectors + [collected[t]];
    }
    assert reviews[..|reviews|] == reviews;
  }

  /** The second loop of `embed_reviews`: the `count` pairs `zip` forms are
      collected by position and stored in the cache under their keys. */
  method StoreNew(cache: EmbeddingCache, pendingIndices: seq<(nat, string)>, newVectors: seq<seq<real>>,
                  count: nat, collected: map<nat, seq<real>>, ghost n: nat)
    returns (out: map<nat, seq<real>>)
    requires count <= |pendingIndices| && count <= |newVectors|
    requires forall t, u | 0 <= t < u < |pendingIndices| :: pendingIndices[t].0 < pendingIndices[u].0
    requires forall t | 0 <= t < |pendingIndices| :: pendingIndices[t].0 !in collected && pendingIndices[t].0 < n
    requires forall i | i in collected :: i < n
    modifies cache
    ensures cache.data == StoreAll(old(cache.data), Seconds(pendingIndices), newVectors, count)
    ensures cache.written == old(cache.written)
    ensures forall i | i in collected :: i in out && out[i] == collected[i]
    ensures forall t | 0 <= t < count :: pendingIndices[t].0 in out && out[pendingIndices[t].0] == newVectors[t]
    ensures forall i | i in out :: i < n
  {
    out := collected;
    for k := 0 to count
      invariant cache.data == StoreAll(old(cache.data), Seconds(pendingIndices), newVectors, k)
      invariant cache.written == old(cache.written)
      invariant forall i | i in collected :: i in out && out[i] == collected[i]
      invariant forall t | 0 <= t < k :: pendingIndices[t].0 in out && out[pendingIndices[t].0] == newVectors[t]
      invariant forall i | i in out :: i < n
    {
      var (idx, cacheKey) := pendingIndices[k];
      out := out[idx := newVectors[k]];
      cache.Set(cacheKey, newVectors[k]);
    }
  }

  /** The `if pending_texts:` block of `embed_reviews`: one encoder call on
      the pending texts, their vectors collected and stored, then a flush;
      `ok` is false when `zip(..., strict=True)` raises. */
  method EncodeAndStore(cache: EmbeddingCache, pendingTexts: seq<string>, pendingIndices: seq<(nat, string)>,
                        collected: map<nat, seq<real>>, encode: seq<string> -> seq<seq<real>>, ghost n: nat)
    returns (ok: bool, out: map<nat, seq<real>>)
    requires |pendingTexts| == |pendingIndices|
    requires forall t, u | 0 <= t < u < |pendingIndices| :: pendingIndices[t].0 < pendingIndices[u].0
    requires forall t | 0 <= t < |pendingIndices| :: pendingIndices[t].0 !in collected && pendingIndices[t].0 < n
    requires forall i | i in collected :: i < n
    modifies cache
    ensures pendingTexts == [] ==> ok && out == collected && cache.data == old(cache.data)
                                   && cache.written == old(cache.written)
    ensures var vs := encode(pendingTexts);
            pendingTexts != [] ==>
              && ok == (|vs| == |pendingTexts|)
              && cache.data == StoreAll(old(cache.data), Seconds(pendingIndices), vs,
                                        if |vs| < |pendingTexts| then |vs| else |pendingTexts|)
              && cache.written == old(cache.written) + (if ok then [cache.data] else [])
    ensures ok ==> forall i | i in collected :: i in out && out[i] == collected[i]
    ensures ok ==> forall t | 0 <= t < |pendingIndices| ::
                     pendingIndices[t].0 in out && out[pendingIndices[t].0] == encode(pendingTexts)[t]
    ensures forall i | i in out :: i < n
  {
    ok, out := true, collected;
    if |pendingTexts| > 0 {
      var newVectors := encode(pendingTexts);
      var count := if |newVectors| < |pendingIndices| then |newVectors| else |pendingIndices|;
      out := StoreNew(cache, pendingIndices, newVectors, count, collected, n);
      if |newVectors| != |pendingIndices| {
        ok := false;
        return;
      }
      cache.Flush();
    }
  }

  /** `EmbeddingService.embed_reviews`. Cached vectors are reused; the texts
      of the misses, and only those, go to the encoder in one call; each new
      vector is stored under its review's key and the cache is flushed only
      when something was encoded. Every review gets its vector, in input
      order. An encoder returning the wrong number of vectors makes
      `zip(..., strict=True)` raise after storing the pairs it did form. */
  method EmbedReviews(cache: EmbeddingCache, reviews: seq<ReviewModel>,
                      encode: seq<string> -> seq<seq<real>>, digest: string -> string)
    returns (r: Result<EmbeddingBatch>)
    modifies cache
    ensures var m := Misses(reviews, old(cache.data), digest);
            var vs := encode(PendingTexts(reviews, m));
            && (m == [] ==> r.Ok? && cache.data == old(cache.data) && cache.written == old(cache.written))
            && (m != [] ==> (r.Err? <==> |vs| != |m|))
            && (m != [] ==> cache.data == StoreAll(old(cache.data), PendingKeys(reviews, m, digest), vs,
                                                   if |vs| < |m| then |vs| else |m|))
            && (m != [] ==> cache.written == old(cache.written) + (if |vs| == |m| then [cache.data] else []))
    ensures r.Ok? ==> r.value.reviewIds == Ids(reviews) && |r.value.vectors| == |reviews|
    ensures r.Ok? ==> forall i | 0 <= i < |reviews| && CacheKey(reviews[i], digest) in old(cache.data) ::
                        r.value.vectors[i] == old(cache.data)[CacheKey(reviews[i], digest)]
    ensures r.Ok? ==> var m := Misses(reviews, old(cache.data), digest);
                      forall t | 0 <= t < |m| :: r.value.vectors[m[t]] == encode(PendingTexts(reviews, m))[t]
  {
    ghost var data0 := cache.data;
    ghost var m := Misses(reviews, data0, digest);
    var pendingTexts, pendingIndices, collected := LookUpAll(cache, reviews, digest);
    assert Seconds(pendingIndices) == PendingKeys(reviews, m, digest);
    var ok, out := EncodeAndStore(cache, pendingTexts, pendingIndices, collected, encode, |reviews|);
    if ok {
      Gathered(reviews, data0, digest, collected, pendingTexts, pendingIndices, out, encode(pendingTexts));
    }
    r := Finish(reviews, ok, out);
  }

  /** Once the misses are encoded, every review has its vector: the cached
      one for a hit, the encoded one for a miss. */
  lemma Gathered(reviews: seq<ReviewModel>, data: map<string, seq<real>>, digest: string -> string,
                 collected: map<nat, seq<real>>, pendingTexts: seq<string>, pendingIndices: seq<(nat, string)>,
                 out: map<nat, seq<real>>, vs: seq<seq<real>>)
    requires CollectedOf(reviews, |reviews|, data, digest, collected)
    requires PendingOf(reviews, Misses(reviews, data, digest), digest, pendingTexts, pendingIndices)
    requires forall i | i in collected :: i in out && out[i] == collected[i]
    requires forall t | 0 <= t < |pendingIndices| :: t < |vs| && pendingIndices[t].0 in out && out[pendingIndices[t].0] == vs[t]
    ensures forall i | 0 <= i < |reviews| :: i in out
    ensures forall i | 0 <= i < |reviews| && CacheKey(reviews[i], digest) in data ::
              out[i] == data[CacheKey(reviews[i], digest)]
    ensures var m := Misses(reviews, data, digest);
            forall t | 0 <= t < |m| :: t < |vs| && m[t] in out && out[m[t]] == vs[t]
  {
    var m := Misses(reviews, data, digest);
    MissesComplete(reviews, data, digest);
    forall i | 0 <= i < |reviews| ensures i in out {
      if CacheKey(reviews[i], digest) !in data {
        var t :| 0 <= t < |m| && m[t] == i;
        assert pendingIndices[t].0 == i;
      }
    }
  }

  /** The end of `embed_reviews`: nothing when `zip` raised, no batch when
      nothing was collected, otherwise every review with its vector. */
  method Finish(reviews: seq<ReviewModel>, ok: bool, collected: map<nat, seq<real>>)
    returns (r: Result<EmbeddingBatch>)
    requires ok ==> forall i | 0 <= i < |reviews| :: i in collected
    ensures !ok <==> r.Err?
    ensures ok ==> && r.value.reviewIds == Ids(reviews) && |r.value.vectors| == |reviews|
                   && forall i | 0 <= i < |reviews| :: r.value.vectors[i] == collected[i]
  {
    if !ok {
      r := Err("ValueError: zip() arguments have different lengths");
    } else if |collected| == 0 {
      assert reviews == [] by {
        assert reviews != [] ==> 0 in collected;
      }
      r := Ok(EmbeddingBatch([], []));
    } else {
      var reviewIds, vectors := InOrder(reviews, collected);
      r := Ok(EmbeddingBatch(reviewIds, vectors));
    }
  }
}
