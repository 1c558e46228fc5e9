/** Small helpers shared by every layer: optional values, raised errors,
    Python's `str.strip`/`str.lower` on ASCII text, substring tests, `join`,
    `str(int)`, slicing with Python's clamping, fixed-size batching and
    subsequences. */
module Common {

  datatype Option<T> = None | Some(value: T)

  /** The outcome of a Python call that may raise: `Err` carries a short
      description of the exception. */
  datatype Result<T> = Ok(value: T) | Err(reason: string)

  // ---------------------------------------------------------------------
  // Whitespace, strip and lower

  /** Python's `str.isspace` restricted to ASCII. */
  predicate IsSpace(c: char)
  {
    c == ' ' || ('\t' <= c <= '\r') || ('\U{1C}' <= c <= '\U{1F}')
  }

  /** `s.lstrip()` */
  function StripLeft(s: string): (r: string)
    ensures |r| <= |s| && r == s[|s| - |r|..]
    ensures forall i | 0 <= i < |s| - |r| :: IsSpace(s[i])
    ensures r == [] || !IsSpace(r[0])
  {
    if s != [] && IsSpace(s[0]) then StripLeft(s[1..]) else s
  }

  /** `s.rstrip()` */
  function StripRight(s: string): (r: string)
    ensures |r| <= |s| && r == s[..|r|]
    ensures forall i | |r| <= i < |s| :: IsSpace(s[i])
    ensures r == [] || !IsSpace(r[|r| - 1])
  {
    if s != [] && IsSpace(s[|s| - 1]) then StripRight(s[..|s| - 1]) else s
  }

  /** `s.strip()`: the result has no whitespace at either end. */
  function Strip(s: string): (r: string)
    ensures |r| <= |s|
    ensures r == [] || (!IsSpace(r[0]) && !IsSpace(r[|r| - 1]))
  {
    StripRight(StripLeft(s))
  }

  predicate IsStripped(s: string)
  {
    s == [] || (!IsSpace(s[0]) && !IsSpace(s[|s| - 1]))
  }

  lemma StripOfStripped(s: string)
    requires IsStripped(s)
    ensures Strip(s) == s
  {
    assert StripLeft(s) == s;
  }

  lemma StripIdempotent(s: string)
    ensures Strip(Strip(s)) == Strip(s)
  {
    StripOfStripped(Strip(s));
  }

  /** Stripping removes only whitespace: `Strip(s)` is empty exactly when
      every character of `s` is whitespace. */
  lemma StripEmptyIffBlank(s: string)
    ensures Strip(s) == [] <==> forall i | 0 <= i < |s| :: IsSpace(s[i])
  {
    var l := StripLeft(s);
    if Strip(s) == [] {
      forall i | 0 <= i < |s| ensures IsSpace(s[i]) {
        if i >= |s| - |l| {
          assert s[i] == l[i - (|s| - |l|)];
        }
      }
    } else {
      var r := Strip(s);
      assert r == l[..|r|];
      assert !IsSpace(s[|s| - |l|]);
    }
  }

  lemma {:induction false} StripLeftSpaces(a: string, t: string)
    requires forall i | 0 <= i < |a| :: IsSpace(a[i])
    requires t == [] || !IsSpace(t[0])
    ensures StripLeft(a + t) == t
    decreases |a|
  {
    if a == [] {
      assert a + t == t;
    } else {
      assert (a + t)[1..] == a[1..] + t;
      StripLeftSpaces(a[1..], t);
    }
  }

  lemma {:induction false} StripRightSpaces(t: string, b: string)
    requires forall i | 0 <= i < |b| :: IsSpace(b[i])
    requires t == [] || !IsSpace(t[|t| - 1])
    ensures StripRight(t + b) == t
    decreases |b|
  {
    if b == [] {
      assert t + b == t;
    } else {
      assert (t + b)[..|t + b| - 1] == t + b[..|b| - 1];
      StripRightSpaces(t, b[..|b| - 1]);
    }
  }

  /** Stripping removes exactly the whitespace around a stripped text. */
  lemma StripSurrounded(a: string, t: string, b: string)
    requires forall i | 0 <= i < |a| :: IsSpace(a[i])
    requires forall i | 0 <= i < |b| :: IsSpace(b[i])
    requires t != [] && IsStripped(t)
    ensures Strip(a + t + b) == t
  {
    var tb := t + b;
    assert tb[0] == t[0];
    StripLeftSpaces(a, tb);
    ConcatAssoc(a, t, b);
    assert StripLeft(a + t + b) == tb;
    StripRightSpaces(t, b);
  }

  /** `s.lstrip(c)` for a single character `c`. */
  function TrimLeft(s: string, c: char): (r: string)
    ensures |r| <= |s|
    decreases |s|
  {
    if s != [] && s[0] == c then TrimLeft(s[1..], c) else s
  }

  /** `s.rstrip(c)` for a single character `c`. */
  function TrimRight(s: string, c: char): (r: string)
    ensures |r| <= |s|
    decreases |s|
  {
    if s != [] && s[|s| - 1] == c then TrimRight(s[..|s| - 1], c) else s
  }

  /** `s.strip(c)` for a single character `c`. */
  function Trim(s: string, c: char): string
  {
    TrimRight(TrimLeft(s, c), c)
  }

  lemma {:induction false} TrimLeftRun(a: string, t: string, c: char)
    requires forall i | 0 <= i < |a| :: a[i] == c
    requires t == [] || t[0] != c
    ensures TrimLeft(a + t, c) == t
    decreases |a|
  {
    if a == [] {
      assert a + t == t;
    } else {
      assert (a + t)[1..] == a[1..] + t;
      TrimLeftRun(a[1..], t, c);
    }
  }

  lemma {:induction false} TrimRightRun(t: string, b: string, c: char)
    requires forall i | 0 <= i < |b| :: b[i] == c
    requires t == [] || t[|t| - 1] != c
    ensures TrimRight(t + b, c) == t
    decreases |b|
  {
    if b == [] {
      assert t + b == t;
    } else {
      assert (t + b)[..|t + b| - 1] == t + b[..|b| - 1];
      TrimRightRun(t, b[..|b| - 1], c);
    }
  }

  /** `strip(c)` removes exactly the runs of `c` around a text that
      neither starts nor ends with `c`. */
  lemma TrimSurrounded(a: string, t: string, b: string, c: char)
    requires forall i | 0 <= i < |a| :: a[i] == c
    requires forall i | 0 <= i < |b| :: b[i] == c
    requires t != [] && t[0] != c && t[|t| - 1] != c
    ensures Trim(a + t + b, c) == t
  {
    TrimLeftRun(a, t + b, c);
    assert a + t + b == a + (t + b);
    TrimRightRun(t, b, c);
  }

  function LowerChar(c: char): char
  {
    if 'A' <= c <= 'Z' then (c as int + 32) as char else c
  }

  /** `s.lower()` on ASCII letters. */
  function Lower(s: string): (r: string)
    ensures |r| == |s|
    ensures forall i | 0 <= i < |s| :: r[i] == LowerChar(s[i])
  {
    seq(|s|, i requires 0 <= i < |s| => LowerChar(s[i]))
  }

  lemma LowerIdempotent(s: string)
    ensures Lower(Lower(s)) == Lower(s)
  {
  }

  // ---------------------------------------------------------------------
  // Prefixes, suffixes, substrings

  predicate StartsWith(s: string, p: string)
  {
    p <= s
  }

  predicate EndsWith(s: string, q: string)
  {
    |q| <= |s| && s[|s| - |q|..] == q
  }

  /** Python's `sub in s`. */
  lemma EndsWithConcat(a: string, b: string)
    ensures EndsWith(a + b, b)
  {
    assert (a + b)[|a + b| - |b|..] == b;
  }

  lemma EndsWithConcat3(a: string, b: string, c: string)
    ensures EndsWith(a + b + c, b + c)
  {
    assert a + b + c == a + (b + c);
    EndsWithConcat(a, b + c);
  }

  predicate Contains(s: string, sub: string)
    decreases |s|
  {
    sub <= s || (s != [] && Contains(s[1..], sub))
  }

  lemma ContainsPrefix(s: string, sub: string)
    requires sub <= s
    ensures Contains(s, sub)
  {
  }

  lemma {:induction false} ContainsInfix(a: string, sub: string, b: string)
    ensures Contains(a + sub + b, sub)
    decreases |a|
  {
    if a == [] {
      assert sub <= sub + b;
      assert a + sub + b == sub + b;
    } else {
      ContainsInfix(a[1..], sub, b);
      assert (a + sub + b)[1..] == a[1..] + sub + b;
    }
  }

  lemma ContainsInfix4(a: string, sub: string, c: string, d: string)
    ensures Contains(a + sub + c + d, sub)
  {
    assert a + sub + c + d == a + sub + (c + d);
    ContainsInfix(a, sub, c + d);
  }

  /** The empty string is contained in everything (`"" in s` is True). */
  lemma ContainsEmpty(s: string)
    ensures Contains(s, "")
  {
  }

  lemma {:induction false} ContainsAppendRight(a: string, b: string, sub: string)
    requires Contains(a, sub)
    ensures Contains(a + b, sub)
    decreases |a|
  {
    if !(sub <= a) {
      ContainsAppendRight(a[1..], b, sub);
      assert (a + b)[1..] == a[1..] + b;
    }
  }

  lemma {:induction false} ContainsAppendLeft(a: string, b: string, sub: string)
    requires Contains(b, sub)
    ensures Contains(a + b, sub)
    decreases |a|
  {
    if a == [] {
      assert a + b == b;
    } else {
      ContainsAppendLeft(a[1..], b, sub);
      assert (a + b)[1..] == a[1..] + b;
    }
  }

  lemma ContainsBetween(a: string, mid: string, b: string, sub: string)
    requires Contains(mid, sub)
    ensures Contains(a + mid + b, sub)
  {
    ContainsAppendRight(mid, b, sub);
    ContainsAppendLeft(a, mid + b, sub);
    assert a + mid + b == a + (mid + b);
  }

  /** Every part of a joined string is contained in it. */
  lemma {:induction false} ContainsJoined(sep: string, parts: seq<string>, k: nat)
    requires k < |parts|
    ensures Contains(Join(sep, parts), parts[k])
    decreases |parts|
  {
    if |parts| == 1 {
      ContainsPrefix(parts[0], parts[0]);
    } else if k == 0 {
      ContainsPrefix(parts[0] + (sep + Join(sep, parts[1..])), parts[0]);
      assert parts[0] + sep + Join(sep, parts[1..]) == parts[0] + (sep + Join(sep, parts[1..]));
    } else {
      ContainsJoined(sep, parts[1..], k - 1);
      ContainsAppendLeft(parts[0] + sep, Join(sep, parts[1..]), parts[k]);
    }
  }

  // ---------------------------------------------------------------------
  // Mapping

  /** `f` applied to every item, in order. */
  function Map<T, U>(xs: seq<T>, f: T -> U): (r: seq<U>)
    ensures |r| == |xs| && forall i | 0 <= i < |xs| :: r[i] == f(xs[i])
  {
    seq(|xs|, i requires 0 <= i < |xs| => f(xs[i]))
  }

  /** The second components of a sequence of pairs. */
  function Seconds<A, B>(ps: seq<(A, B)>): (r: seq<B>)
    ensures |r| == |ps| && forall t | 0 <= t < |ps| :: r[t] == ps[t].1
  {
    seq(|ps|, t requires 0 <= t < |ps| => ps[t].1)
  }

  // ---------------------------------------------------------------------
  // Joining and integer formatting

  /** `sep.join(parts)` */
  function Join<T>(sep: seq<T>, parts: seq<seq<T>>): seq<T>
    decreases |parts|
  {
    if parts == [] then []
    else if |parts| == 1 then parts[0]
    else parts[0] + sep + Join(sep, parts[1..])
  }

  lemma {:induction false} JoinAppend<T>(sep: seq<T>, parts: seq<seq<T>>, last: seq<T>)
    requires parts != []
    ensures Join(sep, parts + [last]) == Join(sep, parts) + sep + last
    decreases |parts|
  {
    if |parts| == 1 {
      assert parts + [last] == [parts[0], last];
    } else {
      assert (parts + [last])[1..] == parts[1..] + [last];
      JoinAppend(sep, parts[1..], last);
    }
  }

  lemma {:induction false} JoinConcat<T>(sep: seq<T>, a: seq<seq<T>>, b: seq<seq<T>>)
    requires a != [] && b != []
    ensures Join(sep, a + b) == Join(sep, a) + sep + Join(sep, b)
    decreases |a|
  {
    if |a| == 1 {
      assert (a + b)[1..] == b;
      assert (a + b)[0] == a[0];
    } else {
      assert (a + b)[1..] == a[1..] + b;
      JoinConcat(sep, a[1..], b);
    }
  }

  /** The first part of a join is at its start, the last at its end. */
  lemma {:induction false} JoinEnds<T>(sep: seq<T>, parts: seq<seq<T>>)
    requires parts != []
    ensures |Join(sep, parts)| >= |parts[|parts| - 1]|
    ensures parts[|parts| - 1] != [] ==> Join(sep, parts)[|Join(sep, parts)| - 1] == parts[|parts| - 1][|parts[|parts| - 1]| - 1]
    ensures parts[0] != [] ==> Join(sep, parts)[0] == parts[0][0]
    decreases |parts|
  {
    if |parts| > 1 {
      JoinEnds(sep, parts[1..]);
    }
  }

  /** The position of the first `c` in `s`, if there is one. */
  function IndexOf(s: string, c: char): (r: Option<nat>)
    ensures r.Some? ==> r.value < |s| && s[r.value] == c && c !in s[..r.value]
    ensures r.None? ==> c !in s
    decreases |s|
  {
    if s == [] then None
    else if s[0] == c then Some(0)
    else
      match IndexOf(s[1..], c)
      case None => None
      case Some(i) => assert s[..i + 1] == [s[0]] + s[1..][..i]; Some(i + 1)
  }

  /** `s.split(c)` for a one-character separator. */
  function Split(s: string, c: char): (r: seq<string>)
    ensures r != []
    decreases |s|
  {
    match IndexOf(s, c)
    case None => [s]
    case Some(i) => [s[..i]] + Split(s[i + 1..], c)
  }

  /** Splitting at the separator undoes joining with it, when no part
      contains the separator. */
  lemma {:induction false} SplitJoin(parts: seq<string>, c: char)
    requires parts != []
    requires forall k | 0 <= k < |parts| :: c !in parts[k]
    ensures Split(Join([c], parts), c) == parts
    decreases |parts|
  {
    if |parts| == 1 {
    } else {
      var rest := Join([c], parts[1..]);
      var s := parts[0] + [c] + rest;
      assert Join([c], parts) == s;
      var i := |parts[0]|;
      assert s[i] == c && s[..i] == parts[0];
      assert IndexOf(s, c) == Some(i) by {
        assert forall j | 0 <= j < i :: s[j] == parts[0][j];
        var r := IndexOf(s, c);
        assert r.Some? && r.value >= i;
      }
      assert s[i + 1..] == rest;
      SplitJoin(parts[1..], c);
      assert [parts[0]] + parts[1..] == parts;
    }
  }

  function DigitChar(d: nat): char
    requires d < 10
  {
    ('0' as int + d) as char
  }

  /** `str(n)` for a natural number: decimal digits, most significant first. */
  function NatToString(n: nat): (r: string)
    ensures r != []
    ensures forall i | 0 <= i < |r| :: '0' <= r[i] <= '9'
  {
    if n < 10 then [DigitChar(n)] else NatToString(n / 10) + [DigitChar(n % 10)]
  }

  /** `str(i)` for any integer. */
  function IntToString(i: int): (r: string)
    ensures r != []
    ensures forall k | 0 <= k < |r| :: !IsSpace(r[k])
  {
    if i < 0 then "-" + NatToString(-i) else NatToString(i)
  }

  // ---------------------------------------------------------------------
  // Slicing and batching

  /** Python's `s[lo:hi]` for non-negative bounds: both are clamped to the
      length, and an empty slice results when `hi <= lo`. */
  function Slice<T>(s: seq<T>, lo: nat, hi: nat): (r: seq<T>)
    ensures lo <= hi <= |s| ==> r == s[lo..hi]
    ensures |r| <= |s|
  {
    var a := if lo <= |s| then lo else |s|;
    var b := if hi <= |s| then hi else |s|;
    if a < b then s[a..b] else []
  }

  /** `s[:n]` */
  function Take<T>(s: seq<T>, n: nat): (r: seq<T>)
    ensures |r| == if |s| <= n then |s| else n
    ensures r <= s
  {
    if |s| <= n then s else s[..n]
  }

  /** `[s[i:i + size] for i in range(0, len(s), size)]` for `size > 0`. */
  function Chunks<T>(s: seq<T>, size: nat): seq<seq<T>>
    requires size > 0
    decreases |s|
  {
    if s == [] then []
    else if |s| <= size then [s]
    else [s[..size]] + Chunks(s[size..], size)
  }

  function Flatten<T>(xss: seq<seq<T>>): seq<T>
    decreases |xss|
  {
    if xss == [] then [] else xss[0] + Flatten(xss[1..])
  }

  lemma SplitLast<T>(xs: seq<T>)
    requires xs != []
    ensures xs == xs[..|xs| - 1] + [xs[|xs| - 1]]
  {
  }

  lemma ConcatAssoc<T>(a: seq<T>, b: seq<T>, c: seq<T>)
    ensures (a + b) + c == a + (b + c)
  {
  }

  lemma {:induction false} FlattenConcat<T>(a: seq<seq<T>>, b: seq<seq<T>>)
    ensures Flatten(a + b) == Flatten(a) + Flatten(b)
    decreases |a|
  {
    if a == [] {
      assert a + b == b;
    } else {
      assert (a + b)[1..] == a[1..] + b;
      FlattenConcat(a[1..], b);
    }
  }

  /** The batches concatenate back to the input. */
  lemma {:induction false} ChunksFlatten<T>(s: seq<T>, size: nat)
    requires size > 0
    ensures Flatten(Chunks(s, size)) == s
    decreases |s|
  {
    if s == [] {
    } else if |s| <= size {
      assert Flatten([s]) == s + Flatten([s][1..]);
    } else {
      ChunksFlatten(s[size..], size);
      assert Flatten(Chunks(s, size)) == s[..size] + Flatten(Chunks(s[size..], size));
      assert s[..size] + s[size..] == s;
    }
  }

  /** There are ceil(|s| / size) batches (the least count whose total
      capacity covers `s`), each holds between 1 and `size` elements, and
      every batch except the last holds exactly `size`. */
  lemma {:induction false} ChunksSizes<T>(s: seq<T>, size: nat)
    requires size > 0
    ensures |s| <= |Chunks(s, size)| * size < |s| + size
    ensures forall k | 0 <= k < |Chunks(s, size)| :: 1 <= |Chunks(s, size)[k]| <= size
    ensures forall k | 0 <= k < |Chunks(s, size)| - 1 :: |Chunks(s, size)[k]| == size
    decreases |s|
  {
    if s == [] {
    } else if |s| <= size {
    } else {
      var rest := Chunks(s[size..], size);
      ChunksSizes(s[size..], size);
      assert Chunks(s, size) == [s[..size]] + rest;
      assert |Chunks(s, size)| * size == size + |rest| * size;
    }
  }

  // ---------------------------------------------------------------------
  // Subsequences

  /** `f` lists, in strictly increasing order, the positions of `ys` that
      `xs` was taken from. */
  ghost predicate SubseqBy<T>(xs: seq<T>, ys: seq<T>, f: seq<nat>)
  {
    && |f| == |xs|
    && (forall t | 0 <= t < |f| :: f[t] < |ys| && xs[t] == ys[f[t]])
    && (forall t, u | 0 <= t < u < |f| :: f[t] < f[u])
  }

  /** `xs` is an order-preserving subsequence of `ys`. */
  ghost predicate IsSubsequence<T>(xs: seq<T>, ys: seq<T>)
  {
    exists f :: SubseqBy(xs, ys, f)
  }

  function Identity(n: nat): (f: seq<nat>)
    ensures |f| == n && forall t | 0 <= t < n :: f[t] == t
  {
    seq(n, t requires 0 <= t < n => t)
  }

  lemma SubsequenceRefl<T>(s: seq<T>)
    ensures IsSubsequence(s, s)
  {
    assert SubseqBy(s, s, Identity(|s|));
  }

  lemma SubsequenceAppend<T>(xs: seq<T>, ys: seq<T>, f: seq<nat>, x: T)
    requires SubseqBy(xs, ys, f)
    ensures SubseqBy(xs + [x], ys + [x], f + [|ys|])
  {
  }

  lemma SubsequenceExtend<T>(xs: seq<T>, ys: seq<T>, f: seq<nat>, y: T)
    requires SubseqBy(xs, ys, f)
    ensures SubseqBy(xs, ys + [y], f)
  {
  }
}
