/** Counting string keys the way a `Counter` or a `defaultdict(int)` does:
    the counts are (key, count) pairs in the order in which each key was
    first counted, which is the order Python dicts keep. */
module Counting {
  import opened Common

  type Counts = seq<(string, nat)>

  function Keys(c: Counts): (ks: seq<string>)
    ensures |ks| == |c|
    ensures forall i | 0 <= i < |c| :: ks[i] == c[i].0
  {
    seq(|c|, i requires 0 <= i < |c| => c[i].0)
  }

  predicate DistinctKeys(c: Counts)
  {
    forall i, j | 0 <= i < j < |c| :: c[i].0 != c[j].0
  }

  /** Where `k` is counted, if it is. */
  function Find(c: Counts, k: string): (r: Option<nat>)
    ensures r.Some? ==> r.value < |c| && c[r.value].0 == k
    ensures r.None? ==> k !in Keys(c)
    decreases |c|
  {
    if c == [] then None
    else if c[|c| - 1].0 == k then Some(|c| - 1)
    else
      var r := Find(c[..|c| - 1], k);
      assert Keys(c) == Keys(c[..|c| - 1]) + [c[|c| - 1].0];
      r
  }

  /** `counts[k]`, with 0 for a key never counted. */
  function CountOf(c: Counts, k: string): nat
  {
    match Find(c, k)
    case None => 0
    case Some(i) => c[i].1
  }

  /** `counts[k] += 1`: bumps an existing entry in place, or appends a new
      one at the end. */
  function Increment(c: Counts, k: string): (r: Counts)
    ensures Keys(r) == if k in Keys(c) then Keys(c) else Keys(c) + [k]
  {
    match Find(c, k)
    case None => c + [(k, 1)]
    case Some(i) => c[i := (k, c[i].1 + 1)]
  }

  /** With distinct keys, a listed key is found where it is listed. */
  lemma {:induction false} FindDistinct(c: Counts, a: nat)
    requires DistinctKeys(c) && a < |c|
    ensures Find(c, c[a].0) == Some(a)
    ensures CountOf(c, c[a].0) == c[a].1
    decreases |c|
  {
    if a < |c| - 1 {
      FindDistinct(c[..|c| - 1], a);
    }
  }

  /** The sort key of a descending sort by count. */
  function NegCount(entry: (string, nat)): int
  {
    -(entry.1 as int)
  }

  /** The number of times `k` occurs in `keys`. */
  function Occurrences(keys: seq<string>, k: string): nat
    decreases |keys|
  {
    if keys == [] then 0
    else Occurrences(keys[..|keys| - 1], k) + (if keys[|keys| - 1] == k then 1 else 0)
  }

  /** Counting every key of `keys` in turn, from no counts. */
  function Tally(keys: seq<string>): Counts
    decreases |keys|
  {
    if keys == [] then [] else Increment(Tally(keys[..|keys| - 1]), keys[|keys| - 1])
  }

  /** The sum of all counts. */
  function Total(c: Counts): nat
    decreases |c|
  {
    if c == [] then 0 else Total(c[..|c| - 1]) + c[|c| - 1].1
  }

  lemma {:induction false} TotalUpdate(c: Counts, i: nat, e: (string, nat))
    requires i < |c|
    ensures Total(c[i := e]) == Total(c) - c[i].1 + e.1
    decreases |c|
  {
    if i < |c| - 1 {
      assert c[i := e][..|c| - 1] == c[..|c| - 1][i := e];
      TotalUpdate(c[..|c| - 1], i, e);
    } else {
      assert c[i := e][..|c| - 1] == c[..|c| - 1];
    }
  }

  lemma IncrementFacts(c: Counts, k: string)
    requires DistinctKeys(c)
    ensures DistinctKeys(Increment(c, k))
    ensures CountOf(Increment(c, k), k) == CountOf(c, k) + 1
    ensures forall other | other != k :: CountOf(Increment(c, k), other) == CountOf(c, other)
    ensures Total(Increment(c, k)) == Total(c) + 1
  {
    if Find(c, k).None? {
      IncrementNew(c, k);
    } else {
      IncrementExisting(c, k, Find(c, k).value);
    }
  }

  lemma IncrementNew(c: Counts, k: string)
    requires DistinctKeys(c) && Find(c, k).None?
    ensures DistinctKeys(Increment(c, k))
    ensures CountOf(Increment(c, k), k) == CountOf(c, k) + 1
    ensures forall other | other != k :: CountOf(Increment(c, k), other) == CountOf(c, other)
    ensures Total(Increment(c, k)) == Total(c) + 1
  {
    var r := Increment(c, k);
    assert r == c + [(k, 1)];
    assert r[..|r| - 1] == c;
    assert Find(r, k) == Some(|c|);
    forall other | other != k ensures CountOf(r, other) == CountOf(c, other) {
      assert Find(r, other) == Find(c, other);
    }
  }

  lemma IncrementExisting(c: Counts, k: string, i: nat)
    requires DistinctKeys(c) && Find(c, k) == Some(i)
    ensures DistinctKeys(Increment(c, k))
    ensures CountOf(Increment(c, k), k) == CountOf(c, k) + 1
    ensures forall other | other != k :: CountOf(Increment(c, k), other) == CountOf(c, other)
    ensures Total(Increment(c, k)) == Total(c) + 1
  {
    var e := (k, c[i].1 + 1);
    assert Increment(c, k) == c[i := e];
    TotalUpdate(c, i, e);
    UpdateCounts(c, i, k, c[i].1 + 1);
  }

  /** Replacing the count of the entry at `i` sets that key's count and
      keeps every other count and the keys distinct. */
  lemma UpdateCounts(c: Counts, i: nat, k: string, n: nat)
    requires DistinctKeys(c) && i < |c| && c[i].0 == k
    ensures DistinctKeys(c[i := (k, n)])
    ensures CountOf(c[i := (k, n)], k) == n
    ensures forall other | other != k :: CountOf(c[i := (k, n)], other) == CountOf(c, other)
  {
    var r := c[i := (k, n)];
    assert forall a | 0 <= a < |r| :: r[a].0 == c[a].0;
    forall other | other != k ensures CountOf(r, other) == CountOf(c, other) {
      FindUpdate(c, i, k, n, other);
    }
    FindUpdate(c, i, k, n, k);
    FindDistinct(c, i);
  }

  /** Replacing the count of the entry at `i` keeps every key where it is. */
  lemma {:induction false} FindUpdate(c: Counts, i: nat, k: string, n: nat, other: string)
    requires DistinctKeys(c) && i < |c| && c[i].0 == k
    ensures Find(c[i := (k, n)], other) == Find(c, other)
    decreases |c|
  {
    var r := c[i := (k, n)];
    if c[|c| - 1].0 != other {
      if i < |c| - 1 {
        assert r[..|r| - 1] == c[..|c| - 1][i := (k, n)];
        FindUpdate(c[..|c| - 1], i, k, n, other);
      } else {
        assert r[..|r| - 1] == c[..|c| - 1];
      }
    }
  }

  /** Counting a sequence of keys: every key is counted once per
      occurrence, keys are listed once each, only keys that occur are
      listed, and the counts add up to the number of keys. */
  lemma {:induction false} TallyFacts(keys: seq<string>)
    ensures DistinctKeys(Tally(keys))
    ensures forall k :: CountOf(Tally(keys), k) == Occurrences(keys, k)
    ensures forall k :: k in Keys(Tally(keys)) <==> k in keys
    ensures Total(Tally(keys)) == |keys|
    decreases |keys|
  {
    if keys != [] {
      var init, last := keys[..|keys| - 1], keys[|keys| - 1];
      TallyFacts(init);
      IncrementFacts(Tally(init), last);
      assert keys == init + [last];
      assert Tally(keys) == Increment(Tally(init), last);
      forall k ensures CountOf(Tally(keys), k) == Occurrences(keys, k) {
        assert Occurrences(keys, k) == Occurrences(init, k) + (if last == k then 1 else 0);
      }
      forall k ensures k in Keys(Tally(keys)) <==> k in keys {
        assert k in keys <==> k in init || k == last;
      }
    }
  }

  /** The first position of `k` in `keys`. */
  function FirstIndex(keys: seq<string>, k: string): (r: nat)
    requires k in keys
    ensures r < |keys| && keys[r] == k && k !in keys[..r]
    decreases |keys|
  {
    if keys[0] == k then 0
    else
      var r := FirstIndex(keys[1..], k);
      assert keys[..r + 1] == [keys[0]] + keys[1..][..r];
      r + 1
  }

  /** `ks` lists keys of `keys` in the order of their first occurrence. */
  predicate InFirstOccurrenceOrder(ks: seq<string>, keys: seq<string>)
  {
    && (forall i | 0 <= i < |ks| :: ks[i] in keys)
    && (forall i, j | 0 <= i < j < |ks| :: FirstIndex(keys, ks[i]) < FirstIndex(keys, ks[j]))
  }

  /** The counted keys are listed in the order of their first occurrence. */
  lemma {:induction false} TallyOrder(keys: seq<string>)
    ensures InFirstOccurrenceOrder(Keys(Tally(keys)), keys)
    decreases |keys|
  {
    if keys != [] {
      var init, last := keys[..|keys| - 1], keys[|keys| - 1];
      TallyOrder(init);
      TallyFacts(init);
      assert keys == init + [last];
      var ks := Keys(Tally(init));
      OrderExtend(ks, init, last);
      if last !in ks {
        OrderAppendNew(ks, init, last);
      }
    }
  }

  /** Appending a key keeps the order of those already listed. */
  lemma OrderExtend(ks: seq<string>, init: seq<string>, last: string)
    requires InFirstOccurrenceOrder(ks, init)
    ensures InFirstOccurrenceOrder(ks, init + [last])
  {
    forall k | k in init ensures FirstIndex(init + [last], k) == FirstIndex(init, k) {
      FirstIndexPrefix(init, [last], k);
    }
    assert forall i | 0 <= i < |ks| :: ks[i] in init;
  }

  /** A key occurring for the first time is listed after all others. */
  lemma OrderAppendNew(ks: seq<string>, init: seq<string>, last: string)
    requires InFirstOccurrenceOrder(ks, init + [last]) && InFirstOccurrenceOrder(ks, init)
    requires last !in init
    ensures InFirstOccurrenceOrder(ks + [last], init + [last])
  {
    FirstIndexLast(init, last);
    var r := ks + [last];
    forall i, j | 0 <= i < j < |r| ensures FirstIndex(init + [last], r[i]) < FirstIndex(init + [last], r[j]) {
      if j == |ks| {
        assert r[i] in init;
      } else {
        assert r[i] == ks[i] && r[j] == ks[j];
      }
    }
  }

  lemma FirstIndexPrefix(a: seq<string>, b: seq<string>, k: string)
    requires k in a
    ensures FirstIndex(a + b, k) == FirstIndex(a, k)
  {
    var i := FirstIndex(a, k);
    var j := FirstIndex(a + b, k);
    assert (a + b)[..i] == a[..i];
    assert forall t | 0 <= t < i :: (a + b)[t] != k;
    assert forall t | 0 <= t < j :: (a + b)[t] != k;
    assert (a + b)[i] == k && (a + b)[j] == k;
  }

  lemma FirstIndexLast(a: seq<string>, k: string)
    requires k !in a
    ensures FirstIndex(a + [k], k) == |a|
  {
    var j := FirstIndex(a + [k], k);
    assert forall t | 0 <= t < |a| :: (a + [k])[t] != k;
  }

  lemma {:induction false} OccurrencesConcat(a: seq<string>, b: seq<string>, k: string)
    ensures Occurrences(a + b, k) == Occurrences(a, k) + Occurrences(b, k)
    decreases |b|
  {
    if b == [] {
      assert a + b == a;
    } else {
      assert (a + b)[..|a + b| - 1] == a + b[..|b| - 1];
      OccurrencesConcat(a, b[..|b| - 1], k);
    }
  }
}
