/** Choosing the most frequent themes and cutting their reviews into
    chunks for the summarization prompts (src/layer3/theme_chunker.py). */
module ThemeChunker {
  import opened Common
  import opened Sorting
  import opened Counting
  import opened Layer3Models

  function ThemeIdsOf(reviews: seq<ClassifiedReview>): (ids: seq<string>)
    ensures |ids| == |reviews|
    ensures forall i | 0 <= i < |reviews| :: ids[i] == reviews[i].themeId
  {
    seq(|reviews|, i requires 0 <= i < |reviews| => reviews[i].themeId)
  }

  // ---------------------------------------------------------------------
  // select_top_theme_ids

  /** `Counter.most_common(n)`: nothing for `n <= 0`, otherwise the counts
      sorted by count, descending and stably, cut to `n`. */
  function MostCommon(c: Counts, n: int): Counts
  {
    if n <= 0 then [] else Take(SortBy(c, NegCount), n)
  }

  /** `select_top_theme_ids` */
  function SelectTopThemeIds(reviews: seq<ClassifiedReview>, maxThemes: int): seq<string>
  {
    Keys(MostCommon(Tally(ThemeIdsOf(reviews)), maxThemes))
  }

  /** The sorted counts: keys once each, every count that of its key, and
      every key one of the ids. */
  lemma SortedCountsFacts(ids: seq<string>)
    ensures var s := SortBy(Tally(ids), NegCount);
            && SortedBy(s, NegCount)
            && multiset(s) == multiset(Tally(ids))
            && DistinctKeys(s)
            && (forall a | 0 <= a < |s| :: s[a].1 == Occurrences(ids, s[a].0) && s[a].0 in ids)
  {
    var c := Tally(ids);
    var s := SortBy(c, NegCount);
    TallyFacts(ids);
    SortByFacts(c, NegCount);
    forall a | 0 <= a < |s| ensures exists x | 0 <= x < |c| :: c[x] == s[a] {
      assert s[a] in multiset(c) by {
        assert s[a] in multiset(s);
      }
    }
    forall a | 0 <= a < |s| ensures s[a].1 == Occurrences(ids, s[a].0) && s[a].0 in ids {
      var x :| 0 <= x < |c| && c[x] == s[a];
      FindDistinct(c, x);
      assert s[a].0 in Keys(c);
    }
    assert NoRepeats(c) by {
      forall i, j | 0 <= i < j < |c| ensures c[i] != c[j] {
        assert c[i].0 != c[j].0;
      }
    }
    NoRepeatsPermutation(c, s);
    forall a, b | 0 <= a < b < |s| ensures s[a].0 != s[b].0 {
      var x :| 0 <= x < |c| && c[x] == s[a];
      var y :| 0 <= y < |c| && c[y] == s[b];
      assert x != y;
    }
  }

  /** The ids returned are the first keys of the sorted counts. */
  lemma TopOfSorted(reviews: seq<ClassifiedReview>, maxThemes: int)
    ensures var s := SortBy(Tally(ThemeIdsOf(reviews)), NegCount);
            var r := SelectTopThemeIds(reviews, maxThemes);
            && |r| <= |s| && |r| <= (if maxThemes <= 0 then 0 else maxThemes)
            && forall i | 0 <= i < |r| :: r[i] == s[i].0
  {
  }

  /** At most `max_themes` ids, each once, each the theme of some review. */
  lemma SelectTopBasic(reviews: seq<ClassifiedReview>, maxThemes: int)
    ensures var r := SelectTopThemeIds(reviews, maxThemes);
            && |r| <= (if maxThemes <= 0 then 0 else maxThemes)
            && (forall i, j | 0 <= i < j < |r| :: r[i] != r[j])
            && (forall i | 0 <= i < |r| :: r[i] in ThemeIdsOf(reviews))
  {
    TopOfSorted(reviews, maxThemes);
    SortedCountsFacts(ThemeIdsOf(reviews));
  }

  /** The ids come by non-increasing frequency, and ids with the same
      frequency in the order they first occur. */
  lemma SelectTopOrder(reviews: seq<ClassifiedReview>, maxThemes: int)
    ensures var ids := ThemeIdsOf(reviews);
            var r := SelectTopThemeIds(reviews, maxThemes);
            && (forall i | 0 <= i < |r| :: r[i] in ids)
            && (forall i, j | 0 <= i < j < |r| :: Occurrences(ids, r[i]) >= Occurrences(ids, r[j]))
            && (forall i, j | 0 <= i < j < |r| && Occurrences(ids, r[i]) == Occurrences(ids, r[j]) ::
                  FirstIndex(ids, r[i]) < FirstIndex(ids, r[j]))
  {
    TopOfSorted(reviews, maxThemes);
    SortedCountsFacts(ThemeIdsOf(reviews));
    SelectTopTies(reviews, maxThemes);
  }

  /** Ids with the same frequency come in the order they first occur. */
  lemma SelectTopTies(reviews: seq<ClassifiedReview>, maxThemes: int)
    ensures var ids := ThemeIdsOf(reviews);
            var r := SelectTopThemeIds(reviews, maxThemes);
            && (forall i | 0 <= i < |r| :: r[i] in ids)
            && (forall i, j | 0 <= i < j < |r| && Occurrences(ids, r[i]) == Occurrences(ids, r[j]) ::
                  FirstIndex(ids, r[i]) < FirstIndex(ids, r[j]))
  {
    var ids := ThemeIdsOf(reviews);
    var c := Tally(ids);
    var r := SelectTopThemeIds(reviews, maxThemes);
    TopOfSorted(reviews, maxThemes);
    SortedCountsFacts(ids);
    TallyNoRepeats(ids);
    TallyOrder(ids);
    forall i, j | 0 <= i < j < |r| && Occurrences(ids, r[i]) == Occurrences(ids, r[j])
      ensures FirstIndex(ids, r[i]) < FirstIndex(ids, r[j])
    {
      TieOrder(ids, c, i, j);
    }
  }

  /** The counts hold each id once. */
  lemma TallyNoRepeats(ids: seq<string>)
    ensures NoRepeats(Tally(ids))
  {
    var c := Tally(ids);
    TallyFacts(ids);
    forall a, b | 0 <= a < b < |c| ensures c[a] != c[b] {
      assert c[a].0 != c[b].0;
    }
  }

  /** Counts listed in first-occurrence order keep that order among equal
      counts once sorted. */
  lemma TieOrder(ids: seq<string>, c: Counts, i: nat, j: nat)
    requires NoRepeats(c) && InFirstOccurrenceOrder(Keys(c), ids)
    requires i < j < |SortBy(c, NegCount)| && SortBy(c, NegCount)[i].1 == SortBy(c, NegCount)[j].1
    ensures SortBy(c, NegCount)[i].0 in ids && SortBy(c, NegCount)[j].0 in ids
    ensures FirstIndex(ids, SortBy(c, NegCount)[i].0) < FirstIndex(ids, SortBy(c, NegCount)[j].0)
  {
    var s := SortBy(c, NegCount);
    StableTies(c, NegCount, i, j);
    var a, b :| 0 <= a < b < |c| && c[a] == s[i] && c[b] == s[j];
    assert Keys(c)[a] == s[i].0 && Keys(c)[b] == s[j].0;
  }

  /** Every id is counted somewhere in the sorted counts. */
  lemma SortedCountsCover(ids: seq<string>, t: string)
    requires t in ids
    ensures exists y | 0 <= y < |SortBy(Tally(ids), NegCount)| :: SortBy(Tally(ids), NegCount)[y].0 == t
  {
    var c := Tally(ids);
    TallyFacts(ids);
    SortByFacts(c, NegCount);
    assert t in Keys(c);
    var x :| 0 <= x < |c| && c[x].0 == t;
    assert c[x] in multiset(SortBy(c, NegCount)) by {
      assert c[x] in multiset(c);
    }
  }

  /** No omitted id occurs more often than a returned one. */
  lemma SelectTopMaximal(reviews: seq<ClassifiedReview>, maxThemes: int)
    ensures var ids := ThemeIdsOf(reviews);
            var r := SelectTopThemeIds(reviews, maxThemes);
            forall t, j | t in ids && t !in r && 0 <= j < |r| :: Occurrences(ids, t) <= Occurrences(ids, r[j])
  {
    var ids := ThemeIdsOf(reviews);
    SortedCountsFacts(ids);
    TopOfSorted(reviews, maxThemes);
    var s := SortBy(Tally(ids), NegCount);
    var r := SelectTopThemeIds(reviews, maxThemes);
    forall t, j | t in ids && t !in r && 0 <= j < |r| ensures Occurrences(ids, t) <= Occurrences(ids, r[j]) {
      SortedCountsCover(ids, t);
      var y :| 0 <= y < |s| && s[y].0 == t;
      PastPrefix(s, r, y, j);
    }
  }

  /** An entry outside a prefix of the counts sorted by decreasing count
      has no larger count than any entry of the prefix. */
  lemma PastPrefix(s: seq<(string, nat)>, r: seq<string>, y: nat, j: nat)
    requires SortedBy(s, NegCount) && |r| <= |s| && forall i | 0 <= i < |r| :: r[i] == s[i].0
    requires y < |s| && s[y].0 !in r && j < |r|
    ensures s[y].1 <= s[j].1
  {
    assert forall k | 0 <= k < |r| :: r[k] in r;
    assert |r| <= y;
    assert NegCount(s[j]) <= NegCount(s[y]);
  }


  /** When fewer than `max_themes` ids are returned, every id is. */
  lemma SelectTopComplete(reviews: seq<ClassifiedReview>, maxThemes: int)
    ensures var ids := ThemeIdsOf(reviews);
            var r := SelectTopThemeIds(reviews, maxThemes);
            |r| < maxThemes ==> forall t | t in ids :: t in r
  {
    var ids := ThemeIdsOf(reviews);
    var s := SortBy(Tally(ids), NegCount);
    var r := SelectTopThemeIds(reviews, maxThemes);
    if |r| < maxThemes {
      assert r == Keys(s);
      forall t | t in ids ensures t in r {
        SortedCountsCover(ids, t);
        var y :| 0 <= y < |s| && s[y].0 == t;
        assert r[y] == t;
      }
    }
  }

  // ---------------------------------------------------------------------
  // group_reviews_by_theme

  /** The reviews of theme `k`, in input order. */
  function OfTheme(reviews: seq<ClassifiedReview>, k: string): (g: seq<ClassifiedReview>)
    ensures forall i | 0 <= i < |g| :: g[i].themeId == k
    decreases |reviews|
  {
    if reviews == [] then []
    else
      var last := reviews[|reviews| - 1];
      OfTheme(reviews[..|reviews| - 1], k) + (if last.themeId == k then [last] else [])
  }

  /** A theme's group holds as many reviews as the theme occurs. */
  lemma {:induction false} OfThemeCount(reviews: seq<ClassifiedReview>, k: string)
    ensures |OfTheme(reviews, k)| == Occurrences(ThemeIdsOf(reviews), k)
    decreases |reviews|
  {
    if reviews != [] {
      var init := reviews[..|reviews| - 1];
      OfThemeCount(init, k);
      assert ThemeIdsOf(reviews)[..|reviews| - 1] == ThemeIdsOf(init);
    }
  }

  /** A theme's group keeps the input order of its reviews. */
  lemma {:induction false} OfThemeOrder(reviews: seq<ClassifiedReview>, k: string)
    ensures IsSubsequence(OfTheme(reviews, k), reviews)
    decreases |reviews|
  {
    if reviews == [] {
      assert SubseqBy<ClassifiedReview>([], [], []);
    } else {
      var init, last := reviews[..|reviews| - 1], reviews[|reviews| - 1];
      OfThemeOrder(init, k);
      var f: seq<nat> :| SubseqBy(OfTheme(init, k), init, f);
      SplitLast(reviews);
      if last.themeId == k {
        SubsequenceAppend(OfTheme(init, k), init, f, last);
        assert SubseqBy(OfTheme(reviews, k), reviews, f + [|init|]);
      } else {
        SubsequenceExtend(OfTheme(init, k), init, f, last);
        assert SubseqBy(OfTheme(reviews, k), reviews, f);
      }
    }
  }

  /** The set of the reviews' themes. */
  function ThemeSet(reviews: seq<ClassifiedReview>): set<string>
  {
    set i | 0 <= i < |reviews| :: reviews[i].themeId
  }

  /** `group_reviews_by_theme`: one group per theme of the reviews, holding
      that theme's reviews in input order. */
  method GroupReviewsByTheme(reviews: seq<ClassifiedReview>) returns (grouped: map<string, seq<ClassifiedReview>>)
    ensures grouped.Keys == ThemeSet(reviews)
    ensures forall k | k in grouped :: grouped[k] == OfTheme(reviews, k)
  {
    grouped := map[];
    for i := 0 to |reviews|
      invariant GroupedUpTo(reviews, i, grouped)
    {
      var review := reviews[i];
      GroupedStep(reviews, i, grouped);
      var group := if review.themeId in grouped then grouped[review.themeId] else [];
      grouped := grouped[review.themeId := group + [review]];
    }
    assert reviews[..|reviews|] == reviews;
  }

  /** `grouped` groups the first `i` reviews by theme. */
  ghost predicate GroupedUpTo(reviews: seq<ClassifiedReview>, i: nat, grouped: map<string, seq<ClassifiedReview>>)
    requires i <= |reviews|
  {
    && grouped.Keys == ThemeSet(reviews[..i])
    && forall k | k in grouped :: grouped[k] == OfTheme(reviews[..i], k)
  }

  /** Appending review `i` to its theme's group groups one more review. */
  lemma GroupedStep(reviews: seq<ClassifiedReview>, i: nat, grouped: map<string, seq<ClassifiedReview>>)
    requires i < |reviews| && GroupedUpTo(reviews, i, grouped)
    ensures var k := reviews[i].themeId;
            GroupedUpTo(reviews, i + 1, grouped[k := (if k in grouped then grouped[k] else []) + [reviews[i]]])
  {
    GroupStep(reviews, i);
  }

  lemma GroupStep(reviews: seq<ClassifiedReview>, i: nat)
    requires i < |reviews|
    ensures ThemeSet(reviews[..i + 1]) == ThemeSet(reviews[..i]) + {reviews[i].themeId}
    ensures OfTheme(reviews[..i + 1], reviews[i].themeId) == OfTheme(reviews[..i], reviews[i].themeId) + [reviews[i]]
    ensures forall k | k != reviews[i].themeId :: OfTheme(reviews[..i + 1], k) == OfTheme(reviews[..i], k)
    ensures reviews[i].themeId !in ThemeSet(reviews[..i]) ==> OfTheme(reviews[..i], reviews[i].themeId) == []
  {
    var pre := reviews[..i];
    assert reviews[..i + 1][..i] == pre;
    var k := reviews[i].themeId;
    if k !in ThemeSet(pre) {
      OfThemeCount(pre, k);
      OccurrencesAbsent(ThemeIdsOf(pre), k);
    }
  }

  lemma {:induction false} OccurrencesAbsent(keys: seq<string>, k: string)
    requires k !in keys
    ensures Occurrences(keys, k) == 0
    decreases |keys|
  {
    if keys != [] {
      OccurrencesAbsent(keys[..|keys| - 1], k);
    }
  }

  /** The sizes of the groups, over the given themes. */
  function GroupSizes(reviews: seq<ClassifiedReview>, themes: seq<string>): nat
    decreases |themes|
  {
    if themes == [] then 0
    else GroupSizes(reviews, themes[..|themes| - 1]) + |OfTheme(reviews, themes[|themes| - 1])|
  }

  /** Over the themes in first-occurrence order, each once, the group sizes
      add up to the number of reviews. */
  lemma GroupSizesTotal(reviews: seq<ClassifiedReview>)
    ensures GroupSizes(reviews, Keys(Tally(ThemeIdsOf(reviews)))) == |reviews|
  {
    var c := Tally(ThemeIdsOf(reviews));
    TallyFacts(ThemeIdsOf(reviews));
    forall a | 0 <= a < |c| ensures |OfTheme(reviews, c[a].0)| == c[a].1 {
      FindDistinct(c, a);
      OfThemeCount(reviews, c[a].0);
    }
    SizesTotal(reviews, c);
  }

  lemma {:induction false} SizesTotal(reviews: seq<ClassifiedReview>, c: Counts)
    requires forall a | 0 <= a < |c| :: |OfTheme(reviews, c[a].0)| == c[a].1
    ensures GroupSizes(reviews, Keys(c)) == Total(c)
    decreases |c|
  {
    if c != [] {
      var init := c[..|c| - 1];
      assert Keys(c)[..|c| - 1] == Keys(init);
      SizesTotal(reviews, init);
    }
  }

  // ---------------------------------------------------------------------
  // build_theme_chunks

  function Wrap(themeId: string, themeName: string, parts: seq<seq<ClassifiedReview>>): (cs: seq<ThemeChunk>)
    ensures |cs| == |parts|
    ensures forall i | 0 <= i < |parts| :: cs[i] == ThemeChunk(themeId, themeName, parts[i])
  {
    seq(|parts|, i requires 0 <= i < |parts| => ThemeChunk(themeId, themeName, parts[i]))
  }

  /** The chunks of one selected theme. A zero step makes `range` raise
      `ValueError`; a negative one gives no chunk. */
  function ChunksOfTheme(themeId: string, group: seq<ClassifiedReview>, size: int): Result<seq<ThemeChunk>>
  {
    if group == [] then Ok([])
    else if size == 0 then Err("ValueError")
    else if size < 0 then Ok([])
    else Ok(Wrap(themeId, group[0].themeName, Chunks(group, size)))
  }

  /** What `build_theme_chunks` returns, or the exception it raises. */
  function BuiltChunks(reviews: seq<ClassifiedReview>, selected: seq<string>, size: int): Result<seq<ThemeChunk>>
    decreases |selected|
  {
    if selected == [] then Ok([])
    else
      match BuiltChunks(reviews, selected[..|selected| - 1], size)
      case Err(e) => Err(e)
      case Ok(chunks) =>
        var t := selected[|selected| - 1];
        match ChunksOfTheme(t, OfTheme(reviews, t), size)
        case Err(e) => Err(e)
        case Ok(more) => Ok(chunks + more)
  }

  /** `build_theme_chunks` */
  method BuildThemeChunks(reviews: seq<ClassifiedReview>, selected: seq<string>, size: int)
    returns (r: Result<seq<ThemeChunk>>)
    ensures r == BuiltChunks(reviews, selected, size)
  {
    var grouped := GroupReviewsByTheme(reviews);
    var chunks: seq<ThemeChunk> := [];
    for t := 0 to |selected|
      invariant BuiltChunks(reviews, selected[..t], size) == Ok(chunks)
    {
      BuiltStep(reviews, selected, t, size, chunks);
      var themeId := selected[t];
      var themeReviews := if themeId in grouped then grouped[themeId] else [];
      if themeId !in grouped {
        AbsentTheme(reviews, themeId);
      }
      if themeReviews == [] {
        assert chunks + [] == chunks;
        continue;
      }
      var themeName := themeReviews[0].themeName;
      if size == 0 {
        ErrStays(reviews, selected, t + 1, size);
        return Err("ValueError");
      }
      if size > 0 {
        var more := ThemeSlices(themeId, themeName, themeReviews, size);
        chunks := chunks + more;
      } else {
        assert chunks + [] == chunks;
      }
    }
    assert selected[..|selected|] == selected;
    r := Ok(chunks);
  }

  lemma BuiltStep(reviews: seq<ClassifiedReview>, selected: seq<string>, t: nat, size: int, chunks: seq<ThemeChunk>)
    requires t < |selected| && BuiltChunks(reviews, selected[..t], size) == Ok(chunks)
    ensures BuiltChunks(reviews, selected[..t + 1], size)
            == match ChunksOfTheme(selected[t], OfTheme(reviews, selected[t]), size)
               case Err(e) => Err(e)
               case Ok(more) => Ok(chunks + more)
  {
    assert selected[..t + 1][..t] == selected[..t];
  }

  /** Once a prefix of the selected ids raises, so does the whole list, with
      the same exception. */
  lemma {:induction false} ErrStays(reviews: seq<ClassifiedReview>, selected: seq<string>, t: nat, size: int)
    requires t <= |selected| && BuiltChunks(reviews, selected[..t], size).Err?
    ensures BuiltChunks(reviews, selected, size) == BuiltChunks(reviews, selected[..t], size)
    decreases |selected|
  {
    if t < |selected| {
      var init := selected[..|selected| - 1];
      assert init[..t] == selected[..t];
      ErrStays(reviews, init, t, size);
    } else {
      assert selected[..t] == selected;
    }
  }

  lemma AbsentTheme(reviews: seq<ClassifiedReview>, k: string)
    requires k !in ThemeSet(reviews)
    ensures OfTheme(reviews, k) == []
  {
    OfThemeCount(reviews, k);
    OccurrencesAbsent(ThemeIdsOf(reviews), k);
  }

  /** The inner loop of `build_theme_chunks`: one chunk per step of
      `range(0, len(theme_reviews), chunk_size)`. */
  method ThemeSlices(themeId: string, themeName: string, group: seq<ClassifiedReview>, size: nat)
    returns (more: seq<ThemeChunk>)
    requires size > 0
    ensures more == Wrap(themeId, themeName, Chunks(group, size))
  {
    more := [];
    var start := 0;
    var k := 0;
    while start < |group|
      invariant 0 <= k <= |Chunks(group, size)|
      invariant more == Wrap(themeId, themeName, Chunks(group, size)[..k])
      invariant start < |group| ==> Chunks(group[start..], size) == Chunks(group, size)[k..]
      invariant start >= |group| ==> k == |Chunks(group, size)|
      decreases |group| - start
    {
      SliceStep(group, start, size);
      var chunk := Slice(group, start, start + size);
      assert Chunks(group, size)[..k + 1] == Chunks(group, size)[..k] + [chunk];
      more := more + [ThemeChunk(themeId, themeName, chunk)];
      start := start + size;
      k := k + 1;
      if start < |group| {
        assert Chunks(group[start..], size) == Chunks(group, size)[k..];
      }
    }
    assert Chunks(group, size)[..k] == Chunks(group, size);
  }

  lemma SliceStep(s: seq<ClassifiedReview>, start: nat, size: nat)
    requires size > 0 && start < |s|
    ensures Chunks(s[start..], size)[0] == Slice(s, start, start + size)
    ensures start + size < |s| ==> Chunks(s[start..], size)[1..] == Chunks(s[start + size..], size)
    ensures start + size >= |s| ==> |Chunks(s[start..], size)| == 1
  {
    var rest := s[start..];
    if start + size < |s| {
      assert rest[size..] == s[start + size..];
      assert rest[..size] == s[start..start + size];
    }
  }

  /** Every chunk of a theme holds between one and `chunk_size` of its
      reviews, all but the last exactly `chunk_size`; together, in order,
      they are the theme's reviews; each carries the theme's id and the
      name of its first review. */
  lemma ChunksOfThemeFacts(reviews: seq<ClassifiedReview>, themeId: string, size: int)
    requires size > 0
    ensures var group := OfTheme(reviews, themeId);
            var cs := ChunksOfTheme(themeId, group, size);
            && cs.Ok?
            && (group == [] ==> cs.value == [])
            && (forall i | 0 <= i < |cs.value| ::
                  && cs.value[i].themeId == themeId
                  && cs.value[i].themeName == group[0].themeName
                  && 1 <= |cs.value[i].reviews| <= size)
            && (forall i | 0 <= i < |cs.value| - 1 :: |cs.value[i].reviews| == size)
            && Flatten(seq(|cs.value|, i requires 0 <= i < |cs.value| => cs.value[i].reviews)) == group
  {
    var group := OfTheme(reviews, themeId);
    if group != [] {
      ChunksSizes(group, size);
      ChunksFlatten(group, size);
      var cs := ChunksOfTheme(themeId, group, size).value;
      assert seq(|cs|, i requires 0 <= i < |cs| => cs[i].reviews) == Chunks(group, size);
    }
  }

  /** The chunks follow the selected ids: those of a list of ids are the
      chunks of its first part followed by those of the rest. */
  lemma {:induction false} BuiltChunksConcat(reviews: seq<ClassifiedReview>, a: seq<string>, b: seq<string>, size: int)
    requires size > 0
    ensures BuiltChunks(reviews, a, size).Ok? && BuiltChunks(reviews, b, size).Ok?
    ensures BuiltChunks(reviews, a + b, size) == Ok(BuiltChunks(reviews, a, size).value + BuiltChunks(reviews, b, size).value)
    decreases |b|
  {
    BuiltChunksOk(reviews, a, size);
    BuiltChunksOk(reviews, b, size);
    if b == [] {
      assert a + b == a;
      assert BuiltChunks(reviews, a, size).value + [] == BuiltChunks(reviews, a, size).value;
    } else {
      var init := b[..|b| - 1];
      BuiltChunksConcat(reviews, a, init, size);
      BuiltChunksAppend(reviews, a, b, size);
    }
  }

  /** The step of `BuiltChunksConcat`: from `a + init` to `a + b`, where
      `init` is `b` without its last id. */
  lemma BuiltChunksAppend(reviews: seq<ClassifiedReview>, a: seq<string>, b: seq<string>, size: int)
    requires size > 0 && b != []
    requires BuiltChunks(reviews, a, size).Ok? && BuiltChunks(reviews, b[..|b| - 1], size).Ok?
    requires BuiltChunks(reviews, a + b[..|b| - 1], size)
             == Ok(BuiltChunks(reviews, a, size).value + BuiltChunks(reviews, b[..|b| - 1], size).value)
    ensures BuiltChunks(reviews, b, size).Ok?
    ensures BuiltChunks(reviews, a + b, size) == Ok(BuiltChunks(reviews, a, size).value + BuiltChunks(reviews, b, size).value)
  {
    var init, t := b[..|b| - 1], b[|b| - 1];
    var ab := a + b;
    assert ab[..|ab| - 1] == a + init && ab[|ab| - 1] == t;
    BuiltChunksLast(reviews, ab, size);
    BuiltChunksLast(reviews, b, size);
    var sa, si := BuiltChunks(reviews, a, size).value, BuiltChunks(reviews, init, size).value;
    var m := ChunksOfTheme(t, OfTheme(reviews, t), size).value;
    assert BuiltChunks(reviews, ab, size) == Ok((sa + si) + m);
    assert BuiltChunks(reviews, b, size) == Ok(si + m);
    ConcatAssoc(sa, si, m);
  }

  /** The chunks of a nonempty list of ids: those of all but the last id,
      then those of the last. */
  lemma BuiltChunksLast(reviews: seq<ClassifiedReview>, selected: seq<string>, size: int)
    requires size > 0 && selected != []
    ensures var t := selected[|selected| - 1];
            && BuiltChunks(reviews, selected[..|selected| - 1], size).Ok?
            && ChunksOfTheme(t, OfTheme(reviews, t), size).Ok?
            && BuiltChunks(reviews, selected, size)
               == Ok(BuiltChunks(reviews, selected[..|selected| - 1], size).value
                     + ChunksOfTheme(t, OfTheme(reviews, t), size).value)
  {
    BuiltChunksOk(reviews, selected[..|selected| - 1], size);
    ChunksOfThemeFacts(reviews, selected[|selected| - 1], size);
  }

  lemma {:induction false} BuiltChunksOk(reviews: seq<ClassifiedReview>, selected: seq<string>, size: int)
    requires size > 0
    ensures BuiltChunks(reviews, selected, size).Ok?
    decreases |selected|
  {
    if selected != [] {
      BuiltChunksOk(reviews, selected[..|selected| - 1], size);
      ChunksOfThemeFacts(reviews, selected[|selected| - 1], size);
    }
  }

  /** A single selected id gives the chunks of its theme, none when it has
      no reviews. */
  lemma BuiltChunksSingle(reviews: seq<ClassifiedReview>, t: string, size: int)
    requires size > 0
    ensures BuiltChunks(reviews, [t], size) == ChunksOfTheme(t, OfTheme(reviews, t), size)
    ensures t !in ThemeSet(reviews) ==> BuiltChunks(reviews, [t], size) == Ok([])
  {
    assert [t][..0] == [];
    ChunksOfThemeFacts(reviews, t, size);
    var m := ChunksOfTheme(t, OfTheme(reviews, t), size).value;
    assert [] + m == m;
    if t !in ThemeSet(reviews) {
      AbsentTheme(reviews, t);
    }
  }

  /** The chunks of one theme raise exactly when the step is zero and the
      theme has reviews. */
  lemma ChunksOfThemeErr(reviews: seq<ClassifiedReview>, t: string, size: int)
    ensures ChunksOfTheme(t, OfTheme(reviews, t), size).Err? <==> size == 0 && t in ThemeSet(reviews)
  {
    if t in ThemeSet(reviews) {
      var i :| 0 <= i < |reviews| && reviews[i].themeId == t;
      OfThemeCount(reviews, t);
      OccurrencesPresent(ThemeIdsOf(reviews), i);
    } else {
      AbsentTheme(reviews, t);
    }
  }

  /** Some element of a nonempty list is in `s` exactly when some element
      before the last one is, or the last one is. */
  lemma AnyInLast<T>(xs: seq<T>, init: seq<T>, last: T, s: set<T>)
    requires xs == init + [last]
    ensures (exists i | 0 <= i < |xs| :: xs[i] in s) <==> (exists i | 0 <= i < |init| :: init[i] in s) || last in s
  {
    assert forall i | 0 <= i < |init| :: init[i] == xs[i];
    assert xs[|init|] == last;
  }

  /** `build_theme_chunks` raises exactly when the step is zero and some
      selected theme has reviews. */
  lemma {:induction false} BuiltChunksErr(reviews: seq<ClassifiedReview>, selected: seq<string>, size: int)
    ensures BuiltChunks(reviews, selected, size).Err? <==>
              size == 0 && exists i | 0 <= i < |selected| :: selected[i] in ThemeSet(reviews)
    decreases |selected|
  {
    if selected != [] {
      var init, t := selected[..|selected| - 1], selected[|selected| - 1];
      BuiltChunksErr(reviews, init, size);
      ChunksOfThemeErr(reviews, t, size);
      SplitLast(selected);
      AnyInLast(selected, init, t, ThemeSet(reviews));
    }
  }

  /** Every chunk belongs to a selected theme that has reviews, and no
      chunk is empty: a theme that was not selected never gets a chunk. */
  lemma {:induction false} BuiltChunksThemes(reviews: seq<ClassifiedReview>, selected: seq<string>, size: int)
    requires BuiltChunks(reviews, selected, size).Ok?
    ensures var cs := BuiltChunks(reviews, selected, size).value;
            forall i | 0 <= i < |cs| ::
              && cs[i].themeId in selected
              && cs[i].themeId in ThemeSet(reviews)
              && cs[i].reviews != []
    decreases |selected|
  {
    if selected != [] {
      var init, t := selected[..|selected| - 1], selected[|selected| - 1];
      BuiltChunksThemes(reviews, init, size);
      SplitLast(selected);
      var prev := BuiltChunks(reviews, init, size).value;
      var more := ChunksOfTheme(t, OfTheme(reviews, t), size).value;
      assert BuiltChunks(reviews, selected, size).value == prev + more;
      if t !in ThemeSet(reviews) {
        AbsentTheme(reviews, t);
      } else if size > 0 {
        ChunksOfThemeFacts(reviews, t, size);
      }
      assert forall i | 0 <= i < |more| :: more[i].themeId == t && more[i].reviews != [];
    }
  }

  lemma {:induction false} OccurrencesPresent(keys: seq<string>, i: nat)
    requires i < |keys|
    ensures Occurrences(keys, keys[i]) > 0
    decreases |keys|
  {
    if i < |keys| - 1 {
      OccurrencesPresent(keys[..|keys| - 1], i);
    }
  }
}
