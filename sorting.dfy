/** Python's `sorted(xs, key=k)`: a stable sort, modelled as an insertion
    sort ascending by an integer key. A descending sort (`reverse=True`,
    which Python also keeps stable) is the ascending sort by the negated
    key. */
module Sorting {

  ghost predicate SortedBy<T>(s: seq<T>, key: T -> int)
  {
    forall i, j | 0 <= i < j < |s| :: key(s[i]) <= key(s[j])
  }

  /** The elements of `s` whose key is `v`, in their order in `s`. */
  function WithKey<T>(s: seq<T>, key: T -> int, v: int): seq<T>
    decreases |s|
  {
    if s == [] then []
    else WithKey(s[..|s| - 1], key, v) + (if key(s[|s| - 1]) == v then [s[|s| - 1]] else [])
  }

  /** Inserts `x` after every element whose key is not greater than its own. */
  function Insert<T>(x: T, s: seq<T>, key: T -> int): (r: seq<T>)
    ensures |r| == |s| + 1
    decreases |s|
  {
    if s == [] then [x]
    else if key(x) < key(s[|s| - 1]) then Insert(x, s[..|s| - 1], key) + [s[|s| - 1]]
    else s + [x]
  }

  function SortBy<T>(s: seq<T>, key: T -> int): (r: seq<T>)
    ensures |r| == |s|
    decreases |s|
  {
    if s == [] then [] else Insert(s[|s| - 1], SortBy(s[..|s| - 1], key), key)
  }

  lemma {:induction false} WithKeyAppend<T>(s: seq<T>, t: seq<T>, key: T -> int, v: int)
    ensures WithKey(s + t, key, v) == WithKey(s, key, v) + WithKey(t, key, v)
    decreases |t|
  {
    if t == [] {
      assert s + t == s;
    } else {
      assert (s + t)[..|s + t| - 1] == s + t[..|t| - 1];
      WithKeyAppend(s, t[..|t| - 1], key, v);
    }
  }

  lemma {:induction false} InsertMultiset<T>(x: T, s: seq<T>, key: T -> int)
    ensures multiset(Insert(x, s, key)) == multiset(s) + multiset{x}
    decreases |s|
  {
    if s != [] {
      var init, last := s[..|s| - 1], s[|s| - 1];
      assert s == init + [last];
      if key(x) < key(last) {
        InsertMultiset(x, init, key);
      }
    }
  }

  lemma {:induction false} InsertSorted<T>(x: T, s: seq<T>, key: T -> int)
    requires SortedBy(s, key)
    ensures SortedBy(Insert(x, s, key), key)
    decreases |s|
  {
    if s != [] {
      var init, last := s[..|s| - 1], s[|s| - 1];
      if key(x) < key(last) {
        InsertSorted(x, init, key);
        InsertMultiset(x, init, key);
        var r := Insert(x, init, key);
        assert Insert(x, s, key) == r + [last];
        forall i | 0 <= i < |r|
          ensures key(r[i]) <= key(last)
        {
          var e := r[i];
          assert e in multiset(r);
          assert e == x || e in multiset(init);
          if e != x {
            var k :| 0 <= k < |init| && init[k] == e;
            assert key(s[k]) <= key(s[|s| - 1]);
          }
        }
      }
    }
  }

  lemma {:induction false} InsertWithKey<T>(x: T, s: seq<T>, key: T -> int, v: int)
    ensures WithKey(Insert(x, s, key), key, v)
            == WithKey(s, key, v) + (if key(x) == v then [x] else [])
    decreases |s|
  {
    if s == [] {
      assert WithKey([x], key, v) == WithKey([], key, v) + (if key(x) == v then [x] else []);
    } else {
      var init, last := s[..|s| - 1], s[|s| - 1];
      assert s == init + [last];
      if key(x) < key(last) {
        InsertWithKey(x, init, key, v);
        var r := Insert(x, init, key);
        assert Insert(x, s, key) == r + [last];
        WithKeyAppend(r, [last], key, v);
        WithKeyAppend(init, [last], key, v);
        assert WithKey([last], key, v) == WithKey([], key, v) + (if key(last) == v then [last] else []);
      } else {
        assert (s + [x])[..|s + [x]| - 1] == s;
      }
    }
  }

  /** `SortBy` returns a sorted permutation of its input, and it is stable:
      the elements that share a key keep their relative order. */
  lemma {:induction false} SortByFacts<T>(s: seq<T>, key: T -> int)
    ensures SortedBy(SortBy(s, key), key)
    ensures multiset(SortBy(s, key)) == multiset(s)
    ensures forall v :: WithKey(SortBy(s, key), key, v) == WithKey(s, key, v)
    decreases |s|
  {
    if s != [] {
      var init, last := s[..|s| - 1], s[|s| - 1];
      assert s == init + [last];
      SortByFacts(init, key);
      InsertSorted(last, SortBy(init, key), key);
      InsertMultiset(last, SortBy(init, key), key);
      forall v ensures WithKey(SortBy(s, key), key, v) == WithKey(s, key, v) {
        InsertWithKey(last, SortBy(init, key), key, v);
      }
    }
  }

  /** No element occurs twice. */
  ghost predicate NoRepeats<T>(s: seq<T>)
  {
    forall i, j | 0 <= i < j < |s| :: s[i] != s[j]
  }

  lemma {:induction false} NoRepeatsCount<T>(s: seq<T>, x: T)
    requires NoRepeats(s)
    ensures multiset(s)[x] <= 1
    decreases |s|
  {
    if s != [] {
      var init := s[..|s| - 1];
      assert s == init + [s[|s| - 1]];
      NoRepeatsCount(init, x);
      if s[|s| - 1] == x {
        assert forall t | 0 <= t < |init| :: init[t] != x;
        assert x !in multiset(init);
      }
    }
  }

  /** A permutation of a sequence without repeats has none. */
  lemma NoRepeatsPermutation<T>(a: seq<T>, b: seq<T>)
    requires NoRepeats(a) && multiset(a) == multiset(b)
    ensures NoRepeats(b)
  {
    forall i, j | 0 <= i < j < |b| ensures b[i] != b[j] {
      NoRepeatsCount(a, b[i]);
      assert b == b[..j] + b[j..];
      assert b[i] in multiset(b[..j]);
      assert b[j] in multiset(b[j..]);
    }
  }

  /** How many elements with key `v` come before position `i`. */
  function Pos<T>(s: seq<T>, key: T -> int, v: int, i: nat): nat
    requires i <= |s|
  {
    |WithKey(s[..i], key, v)|
  }

  /** `s[i]` sits at its position among the elements with its key. */
  lemma WithKeyAt<T>(s: seq<T>, key: T -> int, i: nat)
    requires i < |s|
    ensures Pos(s, key, key(s[i]), i) < |WithKey(s, key, key(s[i]))|
    ensures WithKey(s, key, key(s[i]))[Pos(s, key, key(s[i]), i)] == s[i]
  {
    var v := key(s[i]);
    assert s == (s[..i] + [s[i]]) + s[i + 1..];
    WithKeyAppend(s[..i] + [s[i]], s[i + 1..], key, v);
    WithKeyAppend(s[..i], [s[i]], key, v);
    assert WithKey([s[i]], key, v) == [s[i]] by {
      assert [s[i]][..0] == [];
    }
  }

  lemma PosMonotone<T>(s: seq<T>, key: T -> int, i: nat, j: nat)
    requires i < j <= |s|
    ensures Pos(s, key, key(s[i]), i) < Pos(s, key, key(s[i]), j)
  {
    var v := key(s[i]);
    assert s[..j] == (s[..i] + [s[i]]) + s[i + 1..j];
    WithKeyAppend(s[..i] + [s[i]], s[i + 1..j], key, v);
    WithKeyAppend(s[..i], [s[i]], key, v);
    assert WithKey([s[i]], key, v) == [s[i]] by {
      assert [s[i]][..0] == [];
    }
  }

  lemma {:induction false} WithKeyMember<T>(s: seq<T>, key: T -> int, v: int, x: T)
    requires x in WithKey(s, key, v)
    ensures x in s && key(x) == v
    decreases |s|
  {
    var init := s[..|s| - 1];
    if x in WithKey(init, key, v) {
      WithKeyMember(init, key, v, x);
    }
  }

  lemma {:induction false} WithKeyNoRepeats<T>(s: seq<T>, key: T -> int, v: int)
    requires NoRepeats(s)
    ensures NoRepeats(WithKey(s, key, v))
    decreases |s|
  {
    if s != [] {
      var init, last := s[..|s| - 1], s[|s| - 1];
      WithKeyNoRepeats(init, key, v);
      if key(last) == v {
        if last in WithKey(init, key, v) {
          WithKeyMember(init, key, v, last);
          assert false;
        }
      }
    }
  }

  /** The sort is stable: two elements with the same key come in the
      order they had in the input. */
  lemma StableTies<T>(c: seq<T>, key: T -> int, i: nat, j: nat)
    requires NoRepeats(c)
    requires i < j < |SortBy(c, key)| && key(SortBy(c, key)[i]) == key(SortBy(c, key)[j])
    ensures exists a, b | 0 <= a < b < |c| :: c[a] == SortBy(c, key)[i] && c[b] == SortBy(c, key)[j]
  {
    var s := SortBy(c, key);
    var v := key(s[i]);
    SortByFacts(c, key);
    var f := WithKey(c, key, v);
    assert WithKey(s, key, v) == f;
    WithKeyNoRepeats(c, key, v);
    assert s[i] in multiset(c) && s[j] in multiset(c) by {
      assert s[i] in multiset(s) && s[j] in multiset(s);
    }
    var a :| 0 <= a < |c| && c[a] == s[i];
    var b :| 0 <= b < |c| && c[b] == s[j];
    WithKeyAt(c, key, a);
    WithKeyAt(c, key, b);
    WithKeyAt(s, key, i);
    WithKeyAt(s, key, j);
    PosMonotone(s, key, i, j);
    assert Pos(c, key, v, a) == Pos(s, key, v, i);
    assert Pos(c, key, v, b) == Pos(s, key, v, j);
    if b <= a {
      if b < a {
        PosMonotone(c, key, b, a);
      }
      assert false;
    }
  }

  // ---------------------------------------------------------------------
  // Ordering strings

  /** Python's `a <= b` on strings: lexicographic by code point. */
  predicate LexLe(a: string, b: string)
    decreases |a|
  {
    a == [] || (b != [] && (a[0] < b[0] || (a[0] == b[0] && LexLe(a[1..], b[1..]))))
  }

  lemma {:induction false} LexLeTotal(a: string, b: string)
    ensures LexLe(a, b) || LexLe(b, a)
    decreases |a|
  {
    if a != [] && b != [] && a[0] == b[0] {
      LexLeTotal(a[1..], b[1..]);
    }
  }

  lemma {:induction false} LexLeTrans(a: string, b: string, c: string)
    requires LexLe(a, b) && LexLe(b, c)
    ensures LexLe(a, c)
    decreases |a|
  {
    if a != [] && b != [] && c != [] && a[0] == b[0] == c[0] {
      LexLeTrans(a[1..], b[1..], c[1..]);
    }
  }

  lemma {:induction false} LexLeAntisymmetric(a: string, b: string)
    requires LexLe(a, b) && LexLe(b, a)
    ensures a == b
    decreases |a|
  {
    if a != [] {
      LexLeAntisymmetric(a[1..], b[1..]);
      assert a == [a[0]] + a[1..] && b == [b[0]] + b[1..];
    }
  }

  ghost predicate SortedByString<T>(s: seq<T>, key: T -> string)
  {
    forall i, j | 0 <= i < j < |s| :: LexLe(key(s[i]), key(s[j]))
  }

  /** Inserts `x` after every element whose key is not greater than its own. */
  function InsertByString<T>(x: T, s: seq<T>, key: T -> string): (r: seq<T>)
    ensures |r| == |s| + 1
    decreases |s|
  {
    if s == [] then [x]
    else if !LexLe(key(s[|s| - 1]), key(x)) then InsertByString(x, s[..|s| - 1], key) + [s[|s| - 1]]
    else s + [x]
  }

  /** `sorted(xs, key=k)` for a string-valued key. */
  function SortByString<T>(s: seq<T>, key: T -> string): (r: seq<T>)
    ensures |r| == |s|
    decreases |s|
  {
    if s == [] then [] else InsertByString(s[|s| - 1], SortByString(s[..|s| - 1], key), key)
  }

  lemma {:induction false} InsertByStringMultiset<T>(x: T, s: seq<T>, key: T -> string)
    ensures multiset(InsertByString(x, s, key)) == multiset(s) + multiset{x}
    decreases |s|
  {
    if s != [] {
      var init, last := s[..|s| - 1], s[|s| - 1];
      assert s == init + [last];
      if !LexLe(key(last), key(x)) {
        InsertByStringMultiset(x, init, key);
      }
    }
  }

  lemma {:induction false} InsertByStringSorted<T>(x: T, s: seq<T>, key: T -> string)
    requires SortedByString(s, key)
    ensures SortedByString(InsertByString(x, s, key), key)
    decreases |s|
  {
    if s != [] {
      var init, last := s[..|s| - 1], s[|s| - 1];
      if !LexLe(key(last), key(x)) {
        LexLeTotal(key(last), key(x));
        InsertByStringSorted(x, init, key);
        InsertByStringMultiset(x, init, key);
        var r := InsertByString(x, init, key);
        assert InsertByString(x, s, key) == r + [last];
        forall i | 0 <= i < |r|
          ensures LexLe(key(r[i]), key(last))
        {
          var e := r[i];
          assert e in multiset(r);
          assert e == x || e in multiset(init);
          if e != x {
            var k :| 0 <= k < |init| && init[k] == e;
            assert LexLe(key(s[k]), key(s[|s| - 1]));
          }
        }
      } else {
        forall i | 0 <= i < |s|
          ensures LexLe(key(s[i]), key(x))
        {
          if i < |s| - 1 {
            LexLeTrans(key(s[i]), key(last), key(x));
          }
        }
      }
    }
  }

  /** `SortByString` returns a sorted permutation of its input. */
  lemma {:induction false} SortByStringFacts<T>(s: seq<T>, key: T -> string)
    ensures SortedByString(SortByString(s, key), key)
    ensures multiset(SortByString(s, key)) == multiset(s)
    decreases |s|
  {
    if s != [] {
      var init, last := s[..|s| - 1], s[|s| - 1];
      assert s == init + [last];
      SortByStringFacts(init, key);
      InsertByStringSorted(last, SortByString(init, key), key);
      InsertByStringMultiset(last, SortByString(init, key), key);
    }
  }
}
