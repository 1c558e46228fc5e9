/** Removal of duplicate reviews by id and by fuzzy text similarity
    (src/layer1/deduplicator.py). Dates are seconds since an epoch; the
    fuzzy score `fuzz.token_set_ratio` is the parameter `score`. */
module Deduplicator {
  import opened Common
  import opened Validator

  datatype DeduplicationConfig = DeduplicationConfig(similarityThreshold: int, minTextLength: int,
                                                     dateToleranceDays: int)

  const DefaultConfig := DeduplicationConfig(92, 40, 7)

  datatype DeduplicationSummary = DeduplicationSummary(kept: nat, dropped: nat)

  const SecondsPerDay := 86400

  function Abs(x: int): (r: nat)
    ensures r == x || r == -x
  {
    if x < 0 then -x else x
  }

  /** `(left - right).days`: whole days, rounded towards minus infinity as
      a Python `timedelta` normalises them. */
  function Days(deltaSeconds: int): int
  {
    deltaSeconds / SecondsPerDay
  }

  /** `_days_between` as written: `abs((left - right).days)`. */
  function DaysBetweenAsWritten(left: int, right: int): nat
  {
    Abs(Days(left - right))
  }

  /** One second apart is 0 days one way and 1 day the other way. */
  lemma DaysBetweenAsWrittenAsymmetric()
    ensures DaysBetweenAsWritten(1, 0) == 0
    ensures DaysBetweenAsWritten(0, 1) == 1
  {
    assert Days(-1) == -1;
  }

  /** `_days_between` as intended: the whole days between two instants,
      whichever comes first. */
  function DaysBetween(left: int, right: int): (r: nat)
  {
    Abs(left - right) / SecondsPerDay
  }

  /** The corrected distance is non-negative and symmetric, and it agrees
      with the code whenever `left` is not earlier than `right`. */
  lemma DaysBetweenFacts(left: int, right: int)
    ensures DaysBetween(left, right) == DaysBetween(right, left) >= 0
    ensures left >= right ==> DaysBetween(left, right) == DaysBetweenAsWritten(left, right)
    ensures DaysBetween(left, right) * SecondsPerDay <= Abs(left - right) < (DaysBetween(left, right) + 1) * SecondsPerDay
  {
  }

  /** Whether `review` is compared with the candidate at all: its date is
      within the tolerance and its text is long enough. */
  predicate Comparable(candidate: ReviewModel, review: ReviewModel, config: DeduplicationConfig)
  {
    && DaysBetweenAsWritten(candidate.date, review.date) <= config.dateToleranceDays
    && |review.text| >= config.minTextLength
  }

  /** The candidate is a fuzzy duplicate of some comparable review. */
  predicate Similar(candidate: ReviewModel, existing: seq<ReviewModel>, config: DeduplicationConfig,
                    score: (string, string) -> int)
  {
    && |candidate.text| >= config.minTextLength
    && exists k | 0 <= k < |existing| ::
         Comparable(candidate, existing[k], config) && score(candidate.text, existing[k].text) >= config.similarityThreshold
  }

  /** `_is_similar_to_existing` */
  method IsSimilarToExisting(candidate: ReviewModel, existing: seq<ReviewModel>, config: DeduplicationConfig,
                             score: (string, string) -> int)
    returns (r: bool)
    ensures r == Similar(candidate, existing, config, score)
    ensures |candidate.text| < config.minTextLength ==> !r
  {
    if |candidate.text| < config.minTextLength {
      return false;
    }
    for k := 0 to |existing|
      invariant forall j | 0 <= j < k ::
                  !(Comparable(candidate, existing[j], config)
                    && score(candidate.text, existing[j].text) >= config.similarityThreshold)
    {
      var review := existing[k];
      if DaysBetweenAsWritten(candidate.date, review.date) > config.dateToleranceDays {
        continue;
      }
      if |review.text| < config.minTextLength {
        continue;
      }
      var s := score(candidate.text, review.text);
      if s >= config.similarityThreshold {
        return true;
      }
    }
    return false;
  }

  function IdSet(reviews: seq<ReviewModel>): set<string>
  {
    set k | 0 <= k < |reviews| :: reviews[k].reviewId
  }

  lemma IdSetSnoc(reviews: seq<ReviewModel>, review: ReviewModel)
    ensures IdSet(reviews + [review]) == IdSet(reviews) + {review.reviewId}
  {
    var extended := reviews + [review];
    assert extended[|reviews|].reviewId == review.reviewId;
    forall id | id in IdSet(reviews) ensures id in IdSet(extended) {
      var k :| 0 <= k < |reviews| && reviews[k].reviewId == id;
      assert extended[k] == reviews[k];
    }
  }

  /** The reviews `deduplicate_reviews` keeps: each one in turn is dropped
      when its id was kept before or it is similar to a kept review. */
  function Deduped(reviews: seq<ReviewModel>, config: DeduplicationConfig, score: (string, string) -> int)
    : (kept: seq<ReviewModel>)
    ensures |kept| <= |reviews|
    decreases |reviews|
  {
    if reviews == [] then []
    else
      var kept := Deduped(reviews[..|reviews| - 1], config, score);
      var review := reviews[|reviews| - 1];
      if review.reviewId in IdSet(kept) || Similar(review, kept, config, score) then kept
      else kept + [review]
  }

  /** `deduplicate_reviews` */
  method DeduplicateReviews(reviews: seq<ReviewModel>, config: DeduplicationConfig, score: (string, string) -> int)
    returns (kept: seq<ReviewModel>, summary: DeduplicationSummary)
    ensures kept == Deduped(reviews, config, score)
    ensures summary.kept == |kept| && summary.kept + summary.dropped == |reviews|
  {
    var seenIds: set<string> := {};
    kept := [];
    var dropped: nat := 0;
    for k := 0 to |reviews|
      invariant kept == Deduped(reviews[..k], config, score)
      invariant seenIds == IdSet(kept)
      invariant |kept| + dropped == k
    {
      assert reviews[..k + 1][..k] == reviews[..k];
      var review := reviews[k];
      if review.reviewId in seenIds {
        dropped := dropped + 1;
        continue;
      }
      var similar := IsSimilarToExisting(review, kept, config, score);
      if similar {
        dropped := dropped + 1;
        continue;
      }
      IdSetSnoc(kept, review);
      kept := kept + [review];
      seenIds := seenIds + {review.reviewId};
    }
    assert reviews[..|reviews|] == reviews;
    summary := DeduplicationSummary(|kept|, dropped);
  }

  predicate DistinctIds(reviews: seq<ReviewModel>)
  {
    forall t, u | 0 <= t < u < |reviews| :: reviews[t].reviewId != reviews[u].reviewId
  }

  /** Kept review ids are pairwise distinct. */
  lemma {:induction false} DedupedDistinctIds(reviews: seq<ReviewModel>, config: DeduplicationConfig,
                                              score: (string, string) -> int)
    ensures DistinctIds(Deduped(reviews, config, score))
    decreases |reviews|
  {
    if reviews != [] {
      var n := |reviews| - 1;
      var init := Deduped(reviews[..n], config, score);
      DedupedDistinctIds(reviews[..n], config, score);
      var kept := Deduped(reviews, config, score);
      if kept != init {
        assert kept == init + [reviews[n]] && reviews[n].reviewId !in IdSet(init);
        forall t, u | 0 <= t < u < |kept| ensures kept[t].reviewId != kept[u].reviewId {
          if u == |init| {
            assert kept[t] == init[t];
            assert kept[t].reviewId in IdSet(init);
          } else {
            assert kept[t] == init[t] && kept[u] == init[u];
          }
        }
      }
    }
  }

  /** The kept reviews are an order-preserving subsequence of the input;
      `f` gives their positions. */
  lemma {:induction false} DedupedSubsequence(reviews: seq<ReviewModel>, config: DeduplicationConfig,
                                              score: (string, string) -> int)
    returns (f: seq<nat>)
    ensures SubseqBy(Deduped(reviews, config, score), reviews, f)
    decreases |reviews|
  {
    if reviews == [] {
      f := [];
    } else {
      var n := |reviews| - 1;
      var g := DedupedSubsequence(reviews[..n], config, score);
      assert reviews[..n] + [reviews[n]] == reviews;
      if Deduped(reviews, config, score) == Deduped(reviews[..n], config, score) {
        SubsequenceExtend(Deduped(reviews[..n], config, score), reviews[..n], g, reviews[n]);
        f := g;
      } else {
        SubsequenceAppend(Deduped(reviews[..n], config, score), reviews[..n], g, reviews[n]);
        f := g + [n];
      }
    }
  }

  /** What is kept from a prefix stays kept: later reviews only append. */
  lemma {:induction false} DedupedPrefix(reviews: seq<ReviewModel>, j: nat, config: DeduplicationConfig,
                                         score: (string, string) -> int)
    requires j <= |reviews|
    ensures Deduped(reviews[..j], config, score) <= Deduped(reviews, config, score)
    decreases |reviews| - j
  {
    if j < |reviews| {
      DedupedPrefix(reviews, j + 1, config, score);
      assert reviews[..j + 1][..j] == reviews[..j];
    } else {
      assert reviews[..j] == reviews;
    }
  }

  /** The first review is always kept. */
  lemma FirstKept(reviews: seq<ReviewModel>, config: DeduplicationConfig, score: (string, string) -> int)
    requires reviews != []
    ensures Deduped(reviews, config, score) != [] && Deduped(reviews, config, score)[0] == reviews[0]
  {
    DedupedPrefix(reviews, 1, config, score);
    assert reviews[..1][..0] == [];
    assert !Similar(reviews[0], [], config, score);
  }

  /** A review whose id was kept earlier is dropped whatever its text, and
      a review is dropped as a fuzzy duplicate exactly when it is similar
      to a review kept before it. */
  lemma DroppedIff(reviews: seq<ReviewModel>, i: nat, config: DeduplicationConfig, score: (string, string) -> int)
    requires i < |reviews|
    ensures var before := Deduped(reviews[..i], config, score);
            var after := Deduped(reviews[..i + 1], config, score);
            && (reviews[i].reviewId in IdSet(before) ==> after == before)
            && (reviews[i].reviewId !in IdSet(before) ==>
                  (after == before <==> Similar(reviews[i], before, config, score)))
            && (after == before || after == before + [reviews[i]])
  {
    assert reviews[..i + 1][..i] == reviews[..i];
    var before := Deduped(reviews[..i], config, score);
    assert before != before + [reviews[i]] by {
      assert |before + [reviews[i]]| == |before| + 1;
    }
  }
}
