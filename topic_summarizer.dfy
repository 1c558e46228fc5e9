/** The map stage of summarization (src/layer3/topic_summarizer.py): one
    model call per theme chunk, answers cached by a digest of the chunk, and
    the per-theme insights kept deduplicated and bounded. The model, the
    JSON decoder and SHA-256 are parameters (`Services`); logging and the
    API-key lookup are not modelled. */
module TopicSummarizer {
  import opened Common
  import opened JsonValue
  import opened Layer3Models
  import opened SummaryCache

  // ---------------------------------------------------------------------
  // dedupe_and_trim

  /** Keeping, in order, the normalized form of each item unless it is
      blank or its key was already kept. */
  function KeepFirst<T, K(==)>(items: seq<T>, norm: T -> T, key: T -> K, blank: T -> bool): seq<T>
    decreases |items|
  {
    if items == [] then []
    else
      var u := KeepFirst(items[..|items| - 1], norm, key, blank);
      var n := norm(items[|items| - 1]);
      if blank(n) || key(n) in Map(u, key) then u else u + [n]
  }

  /** Normalized, nonblank, and with distinct keys. */
  ghost predicate KeptForm<T, K>(u: seq<T>, norm: T -> T, key: T -> K, blank: T -> bool)
  {
    && (forall i | 0 <= i < |u| :: !blank(u[i]) && norm(u[i]) == u[i])
    && (forall i, j | 0 <= i < j < |u| :: key(u[i]) != key(u[j]))
  }

  /** A prefix of a list in kept form is in kept form. */
  lemma KeptTake<T, K>(u: seq<T>, n: nat, norm: T -> T, key: T -> K, blank: T -> bool)
    requires KeptForm(u, norm, key, blank)
    ensures KeptForm(Take(u, n), norm, key, blank)
  {
    var r := Take(u, n);
    assert forall i | 0 <= i < |r| :: r[i] == u[i];
  }

  lemma KeysOfAppend<T, K>(u: seq<T>, n: T, key: T -> K)
    ensures Map(u + [n], key) == Map(u, key) + [key(n)]
  {
  }

  /** The unfolding of `KeepFirst` at one more item. */
  lemma KeepFirstStep<T, K>(items: seq<T>, i: nat, norm: T -> T, key: T -> K, blank: T -> bool)
    requires i < |items|
    ensures KeepFirst(items[..i + 1], norm, key, blank) ==
            var u := KeepFirst(items[..i], norm, key, blank);
            var n := norm(items[i]);
            if blank(n) || key(n) in Map(u, key) then u else u + [n]
  {
    assert items[..i + 1][..i] == items[..i];
  }

  /** What is kept from a list is a prefix of what is kept from any
      extension of it. */
  lemma {:induction false} KeepFirstPrefix<T, K>(a: seq<T>, b: seq<T>, norm: T -> T, key: T -> K, blank: T -> bool)
    ensures KeepFirst(a, norm, key, blank) <= KeepFirst(a + b, norm, key, blank)
    decreases |b|
  {
    if b == [] {
      assert a + b == a;
    } else {
      KeepFirstPrefix(a, b[..|b| - 1], norm, key, blank);
      assert (a + b)[..|a + b| - 1] == a + b[..|b| - 1];
    }
  }

  /** With an idempotent normalization, the kept items are normalized,
      nonblank, and have distinct keys. */
  lemma {:induction false} KeepFirstForm<T, K>(items: seq<T>, norm: T -> T, key: T -> K, blank: T -> bool)
    requires forall x :: norm(norm(x)) == norm(x)
    ensures KeptForm(KeepFirst(items, norm, key, blank), norm, key, blank)
    decreases |items|
  {
    if items != [] {
      KeepFirstForm(items[..|items| - 1], norm, key, blank);
    }
  }

  /** The kept items appear in the normalized input, in the same order. */
  lemma {:induction false} KeepFirstSubsequence<T, K>(items: seq<T>, norm: T -> T, key: T -> K, blank: T -> bool)
    ensures IsSubsequence(KeepFirst(items, norm, key, blank), Map(items, norm))
    decreases |items|
  {
    if items == [] {
      assert SubseqBy<T>([], [], []);
    } else {
      var init := items[..|items| - 1];
      KeepFirstSubsequence(init, norm, key, blank);
      var u := KeepFirst(init, norm, key, blank);
      var n := norm(items[|items| - 1]);
      var f: seq<nat> :| SubseqBy(u, Map(init, norm), f);
      assert Map(items, norm) == Map(init, norm) + [n];
      if blank(n) || key(n) in Map(u, key) {
        SubsequenceExtend(u, Map(init, norm), f, n);
        assert SubseqBy(KeepFirst(items, norm, key, blank), Map(items, norm), f);
      } else {
        SubsequenceAppend(u, Map(init, norm), f, n);
        assert SubseqBy(KeepFirst(items, norm, key, blank), Map(items, norm), f + [|init|]);
      }
    }
  }

  /** The key of every nonblank normalized input item is kept. */
  lemma {:induction false} KeepFirstComplete<T, K>(items: seq<T>, norm: T -> T, key: T -> K, blank: T -> bool)
    ensures forall i | 0 <= i < |items| && !blank(norm(items[i])) ::
              key(norm(items[i])) in Map(KeepFirst(items, norm, key, blank), key)
    decreases |items|
  {
    if items != [] {
      var init, last := items[..|items| - 1], items[|items| - 1];
      KeepFirstComplete(init, norm, key, blank);
      var u := KeepFirst(init, norm, key, blank);
      KeepFirstPrefix(init, [last], norm, key, blank);
      assert init + [last] == items;
      var r := KeepFirst(items, norm, key, blank);
      assert Map(u, key) <= Map(r, key);
      forall i | 0 <= i < |items| && !blank(norm(items[i])) ensures key(norm(items[i])) in Map(r, key) {
        if i < |init| {
          assert items[i] == init[i];
        } else if key(norm(last)) !in Map(u, key) {
          KeysOfAppend(u, norm(last), key);
        }
      }
    }
  }

  /** Once a prefix keeps `n` items, the first `n` kept from the whole list
      are those. */
  lemma KeepFirstReached<T, K>(items: seq<T>, j: nat, n: nat, norm: T -> T, key: T -> K, blank: T -> bool)
    requires j <= |items| && |KeepFirst(items[..j], norm, key, blank)| == n
    ensures Take(KeepFirst(items, norm, key, blank), n) == KeepFirst(items[..j], norm, key, blank)
  {
    KeepFirstPrefix(items[..j], items[j..], norm, key, blank);
    assert items[..j] + items[j..] == items;
  }

  /** A list already in kept form is kept whole. */
  lemma {:induction false} KeepFirstFixed<T, K>(u: seq<T>, norm: T -> T, key: T -> K, blank: T -> bool)
    requires KeptForm(u, norm, key, blank)
    ensures KeepFirst(u, norm, key, blank) == u
    decreases |u|
  {
    if u != [] {
      var init := u[..|u| - 1];
      KeepFirstFixed(init, norm, key, blank);
      assert init + [u[|u| - 1]] == u;
    }
  }

  predicate IsBlank(s: string)
  {
    s == []
  }

  /** `dedupe_and_trim` without its bound: each item stripped, blanks
      dropped, and an item dropped when an earlier kept one has the same
      lower-case form. */
  function Unique(items: seq<string>): seq<string>
  {
    KeepFirst(items, Strip, Lower, IsBlank)
  }

  /** The length at which `dedupe_and_trim` stops: the check comes after an
      item is kept, so a bound below one still keeps one item. */
  function Cap(maxItems: int): nat
  {
    if maxItems < 1 then 1 else maxItems
  }

  /** `dedupe_and_trim(items, max_items)` */
  function Trimmed(items: seq<string>, maxItems: int): seq<string>
  {
    Take(Unique(items), Cap(maxItems))
  }

  /** Stripped, nonblank, and distinct up to case. */
  ghost predicate Deduped(u: seq<string>)
  {
    KeptForm(u, Strip, Lower, IsBlank)
  }

  lemma StripIdempotentAll()
    ensures forall x :: Strip(Strip(x)) == Strip(x)
  {
    forall x: string ensures Strip(Strip(x)) == Strip(x) {
      StripIdempotent(x);
    }
  }

  /** `dedupe_and_trim` keeps at most `Cap(maxItems)` items, stripped,
      nonblank and distinct up to case, in input order; when it keeps fewer
      than that, every nonblank input item is among them up to case. */
  lemma TrimmedFacts(items: seq<string>, maxItems: int)
    ensures Deduped(Trimmed(items, maxItems))
    ensures |Trimmed(items, maxItems)| <= Cap(maxItems)
    ensures IsSubsequence(Trimmed(items, maxItems), Map(items, Strip))
    ensures |Trimmed(items, maxItems)| < Cap(maxItems) ==>
              forall i | 0 <= i < |items| && Strip(items[i]) != [] ::
                Lower(Strip(items[i])) in Map(Trimmed(items, maxItems), Lower)
  {
    TrimmedForm(items, maxItems);
    TrimmedOrder(items, maxItems);
    TrimmedComplete(items, maxItems);
  }

  lemma TrimmedForm(items: seq<string>, maxItems: int)
    ensures Deduped(Trimmed(items, maxItems))
    ensures |Trimmed(items, maxItems)| <= Cap(maxItems)
  {
    StripIdempotentAll();
    KeepFirstForm(items, Strip, Lower, IsBlank);
    KeptTake(Unique(items), Cap(maxItems), Strip, Lower, IsBlank);
  }

  lemma TrimmedOrder(items: seq<string>, maxItems: int)
    ensures IsSubsequence(Trimmed(items, maxItems), Map(items, Strip))
  {
    KeepFirstSubsequence(items, Strip, Lower, IsBlank);
    var u := Unique(items);
    var r := Trimmed(items, maxItems);
    var f: seq<nat> :| SubseqBy(u, Map(items, Strip), f);
    assert SubseqBy(r, Map(items, Strip), f[..|r|]);
  }

  lemma TrimmedComplete(items: seq<string>, maxItems: int)
    ensures |Trimmed(items, maxItems)| < Cap(maxItems) ==>
              forall i | 0 <= i < |items| && Strip(items[i]) != [] ::
                Lower(Strip(items[i])) in Map(Trimmed(items, maxItems), Lower)
  {
    KeepFirstComplete(items, Strip, Lower, IsBlank);
    var u := Unique(items);
    assert |Trimmed(items, maxItems)| < Cap(maxItems) ==> Trimmed(items, maxItems) == u;
  }

  /** Trimming a trimmed list changes nothing. */
  lemma TrimmedIdempotent(items: seq<string>, maxItems: int)
    ensures Trimmed(Trimmed(items, maxItems), maxItems) == Trimmed(items, maxItems)
  {
    TrimmedFacts(items, maxItems);
    KeepFirstFixed(Trimmed(items, maxItems), Strip, Lower, IsBlank);
  }

  /** Trimming a kept list extended by new items keeps the old list as a
      prefix: items already in an insight are never displaced. */
  lemma TrimmedKeeps(kept: seq<string>, more: seq<string>, maxItems: int)
    requires Deduped(kept) && |kept| <= Cap(maxItems)
    ensures kept <= Trimmed(kept + more, maxItems)
  {
    KeepFirstFixed(kept, Strip, Lower, IsBlank);
    KeepFirstPrefix(kept, more, Strip, Lower, IsBlank);
  }

  /** Once a prefix keeps `Cap(maxItems)` items, the rest of the list
      changes nothing. */
  lemma TrimReached(items: seq<string>, j: nat, maxItems: int)
    requires j <= |items| && |Unique(items[..j])| == Cap(maxItems)
    ensures Unique(items[..j]) == Trimmed(items, maxItems)
  {
    KeepFirstReached(items, j, Cap(maxItems), Strip, Lower, IsBlank);
  }

  /** `dedupe_and_trim`: walks the items once with a `seen` set and stops
      as soon as the bound is reached. */
  method DedupeAndTrim(items: seq<string>, maxItems: int) returns (r: seq<string>)
    ensures r == Trimmed(items, maxItems)
  {
    var seen: set<string> := {};
    r := [];
    var i := 0;
    while i < |items|
      invariant DedupeState(items, i, maxItems, r, seen)
    {
      var done;
      r, seen, done := DedupeItem(items, i, maxItems, r, seen);
      if done {
        return;
      }
      i := i + 1;
    }
    DedupeEnd(items, maxItems, r, seen);
  }

  /** One turn of the loop of `dedupe_and_trim`: item `i` is skipped or
      kept, and `done` says the bound was reached with the result final. */
  method DedupeItem(items: seq<string>, i: nat, maxItems: int, r: seq<string>, seen: set<string>)
    returns (r': seq<string>, seen': set<string>, done: bool)
    requires DedupeState(items, i, maxItems, r, seen) && i < |items|
    ensures done ==> r' == Trimmed(items, maxItems)
    ensures !done ==> DedupeState(items, i + 1, maxItems, r', seen')
  {
    r', seen', done := r, seen, false;
    var normalized := Strip(items[i]);
    if normalized == [] {
      DedupeSkip(items, i, maxItems, r, seen);
      return;
    }
    var lowercase := Lower(normalized);
    if lowercase in seen {
      DedupeSkip(items, i, maxItems, r, seen);
      return;
    }
    DedupeKeep(items, i, maxItems, r, seen);
    seen' := seen + {lowercase};
    r' := r + [normalized];
    done := |r'| >= maxItems;
  }

  /** The state of `dedupe_and_trim` after `i` items: what it kept, below
      the bound, and `seen` holding the lower-case forms of what it kept. */
  ghost predicate DedupeState(items: seq<string>, i: int, maxItems: int, r: seq<string>, seen: set<string>)
  {
    && 0 <= i <= |items|
    && r == Unique(items[..i]) && |r| < Cap(maxItems)
    && forall x :: x in seen <==> x in Map(r, Lower)
  }

  /** A blank item, or one whose lower-case form was seen, is skipped. */
  lemma DedupeSkip(items: seq<string>, i: int, maxItems: int, r: seq<string>, seen: set<string>)
    requires DedupeState(items, i, maxItems, r, seen) && i < |items|
    requires Strip(items[i]) == [] || Lower(Strip(items[i])) in seen
    ensures DedupeState(items, i + 1, maxItems, r, seen)
  {
    KeepFirstStep(items, i, Strip, Lower, IsBlank);
  }

  /** Any other item is kept; when that reaches the bound, the result is
      final. */
  lemma DedupeKeep(items: seq<string>, i: int, maxItems: int, r: seq<string>, seen: set<string>)
    requires DedupeState(items, i, maxItems, r, seen) && i < |items|
    requires Strip(items[i]) != [] && Lower(Strip(items[i])) !in seen
    ensures var r' := r + [Strip(items[i])];
            && (|r'| >= maxItems ==> r' == Trimmed(items, maxItems))
            && (|r'| < maxItems ==> DedupeState(items, i + 1, maxItems, r', seen + {Lower(Strip(items[i]))}))
  {
    var n := Strip(items[i]);
    KeepFirstStep(items, i, Strip, Lower, IsBlank);
    KeysOfAppend(r, n, Lower);
    assert r + [n] == Unique(items[..i + 1]);
    if |r + [n]| >= maxItems {
      TrimReached(items, i + 1, maxItems);
    }
  }

  /** With every item seen, what was kept is the result. */
  lemma DedupeEnd(items: seq<string>, maxItems: int, r: seq<string>, seen: set<string>)
    requires DedupeState(items, |items|, maxItems, r, seen)
    ensures r == Trimmed(items, maxItems)
  {
    assert items[..|items|] == items;
  }

  // ---------------------------------------------------------------------
  // Reading the model's answer

  /** One comprehension of `_summarize_chunk` over a list,
      `[x.strip() for x in items if x]`: falsy items are skipped and a truthy
      item that is not a string has no `strip`. */
  function StrippedList(items: seq<Json>): Result<seq<string>>
    decreases |items|
  {
    if items == [] then Ok([])
    else
      match StrippedList(items[..|items| - 1])
      case Err(e) => Err(e)
      case Ok(init) =>
        var x := items[|items| - 1];
        if !Truthy(x) then Ok(init)
        else if x.JString? then Ok(init + [Strip(x.s)])
        else Err("AttributeError")
  }

  /** The same comprehension over whatever `payload.get(key, [])` gave: a
      string is iterated by characters, a dictionary by its keys, and
      anything else cannot be iterated. */
  function StrippedItems(value: Json): Result<seq<string>>
  {
    match value
    case JArray(items) => StrippedList(items)
    case JString(s) => Ok(seq(|s|, i requires 0 <= i < |s| => Strip([s[i]])))
    case JObject(_, keys) => StrippedList(JsonStrings(keys))
    case _ => Err("TypeError")
  }

  /** The comprehension fails exactly when a truthy item is not a string. */
  lemma {:induction false} StrippedListOk(items: seq<Json>)
    ensures StrippedList(items).Ok? <==> forall i | 0 <= i < |items| :: Truthy(items[i]) ==> items[i].JString?
    decreases |items|
  {
    if items != [] {
      var init := items[..|items| - 1];
      StrippedListOk(init);
      assert forall i | 0 <= i < |init| :: init[i] == items[i];
    }
  }

  /** `[x for x in xs if x]` */
  function NonEmpty(xs: seq<string>): seq<string>
    decreases |xs|
  {
    if xs == [] then []
    else NonEmpty(xs[..|xs| - 1]) + (if xs[|xs| - 1] != [] then [xs[|xs| - 1]] else [])
  }

  /** On a list of strings the comprehension strips every nonempty one, in
      order. */
  lemma {:induction false} StrippedStrings(xs: seq<string>)
    ensures StrippedList(JsonStrings(xs)) == Ok(Map(NonEmpty(xs), Strip))
    decreases |xs|
  {
    if xs != [] {
      var init := xs[..|xs| - 1];
      StrippedStrings(init);
      var x := xs[|xs| - 1];
      assert JsonStrings(xs)[..|xs| - 1] == JsonStrings(init);
      assert JsonStrings(xs)[|xs| - 1] == JString(x);
      if x != [] {
        assert Truthy(JString(x));
        assert NonEmpty(xs) == NonEmpty(init) + [x];
        assert Map(NonEmpty(xs), Strip) == Map(NonEmpty(init), Strip) + [Strip(x)];
      } else {
        assert NonEmpty(xs) == NonEmpty(init) + [];
        assert NonEmpty(init) + [] == NonEmpty(init);
      }
    }
  }

  /** What `payload.get(key, [])` gives: the comprehension fails exactly
      on a value that cannot be iterated or a list with a truthy item that
      is not a string; a dictionary gives its nonempty keys, stripped, in
      insertion order. */
  lemma StrippedItemsOk(value: Json)
    ensures StrippedItems(value).Ok? <==>
              || value.JString? || value.JObject?
              || (value.JArray? && forall i | 0 <= i < |value.items| :: Truthy(value.items[i]) ==> value.items[i].JString?)
    ensures value.JObject? ==> StrippedItems(value) == Ok(Map(NonEmpty(value.keys), Strip))
  {
    match value
    case JArray(items) => StrippedListOk(items);
    case JObject(_, keys) => StrippedStrings(keys);
    case _ =>
  }

  // ---------------------------------------------------------------------
  // The cache key

  /** `f"{review.review_id}:{review.text.strip()}"` */
  function MaterialPart(r: ClassifiedReview): string
  {
    r.reviewId + ":" + Strip(r.text)
  }

  function MaterialParts(reviews: seq<ClassifiedReview>): (r: seq<string>)
    ensures |r| == |reviews| && forall i | 0 <= i < |reviews| :: r[i] == MaterialPart(reviews[i])
  {
    seq(|reviews|, i requires 0 <= i < |reviews| => MaterialPart(reviews[i]))
  }

  /** The text `_chunk_cache_key` hashes: the theme id, then every review's
      id and stripped text. The key is its SHA-256 hex digest. */
  function CacheMaterial(chunk: ThemeChunk): string
  {
    chunk.themeId + "|" + Join("|", MaterialParts(chunk.reviews))
  }

  /** A chunk whose theme id, review ids and stripped texts hold none of the
      separators. */
  predicate SeparatorFree(chunk: ThemeChunk)
  {
    && '|' !in chunk.themeId
    && forall i | 0 <= i < |chunk.reviews| ::
         '|' !in chunk.reviews[i].reviewId && ':' !in chunk.reviews[i].reviewId && '|' !in Strip(chunk.reviews[i].text)
  }

  lemma SplitAtSeparator<T>(a: seq<T>, b: seq<T>, c: seq<T>, d: seq<T>, sep: T)
    requires sep !in a && sep !in c && a + [sep] + b == c + [sep] + d
    ensures a == c && b == d
  {
    var s := a + [sep] + b;
    assert s[|a|] == sep && s[|c|] == sep;
    assert forall i | 0 <= i < |a| :: s[i] == a[i] && a[i] in a;
    assert forall i | 0 <= i < |c| :: s[i] == c[i] && c[i] in c;
    assert |a| == |c|;
    assert a == s[..|a|] && c == s[..|c|];
    assert b == s[|a| + 1..] && d == s[|c| + 1..];
  }

  /** Chunks without separators in their ids and texts hash the same text
      only when they have the same theme and the same review ids and
      stripped texts, in the same order. */
  lemma CacheMaterialInjective(c1: ThemeChunk, c2: ThemeChunk)
    requires c1.reviews != [] && c2.reviews != []
    requires SeparatorFree(c1) && SeparatorFree(c2)
    requires CacheMaterial(c1) == CacheMaterial(c2)
    ensures c1.themeId == c2.themeId && |c1.reviews| == |c2.reviews|
    ensures forall i | 0 <= i < |c1.reviews| ::
              c1.reviews[i].reviewId == c2.reviews[i].reviewId && Strip(c1.reviews[i].text) == Strip(c2.reviews[i].text)
  {
    var p1, p2 := MaterialParts(c1.reviews), MaterialParts(c2.reviews);
    assert "|" == ['|'] && ":" == [':'];
    SplitAtSeparator(c1.themeId, Join("|", p1), c2.themeId, Join("|", p2), '|');
    forall k | 0 <= k < |p1| ensures '|' !in p1[k] {
      assert p1[k] == c1.reviews[k].reviewId + ":" + Strip(c1.reviews[k].text);
    }
    forall k | 0 <= k < |p2| ensures '|' !in p2[k] {
      assert p2[k] == c2.reviews[k].reviewId + ":" + Strip(c2.reviews[k].text);
    }
    SplitJoin(p1, '|');
    SplitJoin(p2, '|');
    forall i | 0 <= i < |c1.reviews|
      ensures c1.reviews[i].reviewId == c2.reviews[i].reviewId && Strip(c1.reviews[i].text) == Strip(c2.reviews[i].text)
    {
      assert p1[i] == p2[i];
      SplitAtSeparator(c1.reviews[i].reviewId, Strip(c1.reviews[i].text),
                       c2.reviews[i].reviewId, Strip(c2.reviews[i].text), ':');
    }
  }

  // ---------------------------------------------------------------------
  // The prompt

  /** `"\n\n".join(review.to_prompt_text() for review in chunk.reviews)` */
  function ReviewsBlock(chunk: ThemeChunk): string
  {
    Join("\n\n", PromptTexts(chunk.reviews))
  }

  function PromptTexts(reviews: seq<ClassifiedReview>): (r: seq<string>)
    ensures |r| == |reviews| && forall i | 0 <= i < |reviews| :: r[i] == ToPromptText(reviews[i])
  {
    seq(|reviews|, i requires 0 <= i < |reviews| => ToPromptText(reviews[i]))
  }

  /** The fixed text of a prompt template, in the pieces around its two
      fields: the theme name, which appears twice, and the reviews block. */
  datatype PromptTemplate = PromptTemplate(intro: string, reviewsHeading: string, tasks: string, tail: string)

  /** `MAP_PROMPT_TEMPLATE` */
  const MapPromptTemplate: PromptTemplate := PromptTemplate(
    "You are summarizing feedback about Slow, Glitches, UI/UX, Payments/Statements, customer support, slow.\n\nTheme: ",
    "\nReviews (already cleaned, no direct PII):\n",
    "\n\nTasks:\n1. Extract 3-5 key points about this theme in a neutral, factual tone.\n"
    + "2. Identify up to 3 short, vivid quotes that capture the sentiment.\n"
    + "   - Do NOT include names, usernames, emails, or IDs.\n"
    + "   - If a quote contains PII, rewrite it to keep meaning but remove the PII.\n"
    + "3. Return JSON:\n{\n  \"theme\": \"",
    "\",\n  \"key_points\": [\"...\", \"...\"],\n  \"candidate_quotes\": [\"...\", \"...\", \"...\"]\n}\n\n"
    + "Keep everything concise. Avoid marketing fluff. Return only JSON.")

  /** The template up to the reviews. */
  function PromptOpening(t: PromptTemplate, themeName: string): string
  {
    t.intro + themeName + t.reviewsHeading
  }

  /** The template after the reviews. */
  function PromptClosing(t: PromptTemplate, themeName: string): string
  {
    t.tasks + themeName + t.tail
  }

  /** `template.format(theme_name=..., reviews_block=...)` */
  function MapPrompt(t: PromptTemplate, themeName: string, block: string): string
  {
    PromptOpening(t, themeName) + block + PromptClosing(t, themeName)
  }

  /** The prompt holds whatever its reviews block holds. */
  lemma PromptHolds(t: PromptTemplate, themeName: string, block: string, sub: string)
    requires Contains(block, sub)
    ensures Contains(MapPrompt(t, themeName, block), sub)
  {
    ContainsBetween(PromptOpening(t, themeName), block, PromptClosing(t, themeName), sub);
  }

  /** The prompt for a chunk holds the prompt text of every review in it. */
  lemma PromptHoldsReviews(t: PromptTemplate, chunk: ThemeChunk, k: nat)
    requires k < |chunk.reviews|
    ensures Contains(MapPrompt(t, chunk.themeName, ReviewsBlock(chunk)), ToPromptText(chunk.reviews[k]))
  {
    ContainsJoined("\n\n", PromptTexts(chunk.reviews), k);
    PromptHolds(t, chunk.themeName, ReviewsBlock(chunk), ToPromptText(chunk.reviews[k]));
  }

  // ---------------------------------------------------------------------
  // One chunk

  /** What the model call gives: it raised, or it answered with a text
      (an absent text is the empty one). */
  datatype Reply = Raised | Replied(text: string)

  /** The calls the map stage makes outside this model: the language model,
      a fixed function of the prompt; `json.loads`, `None` where it raises;
      and the SHA-256 hex digest. */
  datatype Services = Services(generate: string -> Reply, parse: string -> Option<Json>, digest: string -> string)

  /** The summarizer's settings: `max_key_points` and
      `max_quotes_per_theme` of its configuration, and its prompt
      template. */
  datatype Settings = Settings(maxKeyPoints: int, maxQuotesPerTheme: int, template: PromptTemplate)

  /** The payload dictionary of a reply: none when the call raised, when
      the text does not decode, or when it decodes to something other than a
      dictionary; an empty text reads as `"{}"`. */
  function ReplyPayload(reply: Reply, parse: string -> Option<Json>): Option<map<string, Json>>
  {
    if reply.Raised? then None
    else
      var decoded := if reply.text == [] then Some(JObject(map[], [])) else parse(reply.text);
      if decoded.Some? && decoded.value.JObject? then Some(decoded.value.fields) else None
  }

  /** The summary built from a payload dictionary, named after the chunk. */
  function SummaryOf(chunk: ThemeChunk, fields: map<string, Json>): Result<ChunkSummary>
  {
    match StrippedItems(Get(fields, KeyPointsKey, JArray([])))
    case Err(e) => Err(e)
    case Ok(points) =>
      match StrippedItems(Get(fields, CandidateQuotesKey, JArray([])))
      case Err(e) => Err(e)
      case Ok(quotes) => Ok(ChunkSummary(chunk.themeId, chunk.themeName, points, quotes))
  }

  /** The cache key of a chunk, empty when there is no cache. */
  function CacheKey(chunk: ThemeChunk, enabled: bool, sv: Services): string
  {
    if enabled then sv.digest(CacheMaterial(chunk)) else ""
  }

  /** The outcome of `_summarize_chunk`: the summary, if any, the cache
      store after it, and whether it called `set`. */
  datatype ChunkResult = ChunkResult(summary: Option<ChunkSummary>, store: Json, wrote: bool)

  /** `_summarize_chunk` on a cache store (`enabled` says whether there is
      a cache): a cached summary is returned as it is; otherwise the model
      is asked, a failed or malformed answer gives no summary, and a summary
      with some point or quote is stored. An error is an exception that
      leaves the call. */
  function SummarizeChunkSpec(chunk: ThemeChunk, t: PromptTemplate, enabled: bool, store: Json, sv: Services)
    : Result<ChunkResult>
  {
    var key := CacheKey(chunk, enabled, sv);
    var cached := if key != "" then CacheGet(store, key) else Ok(None);
    if cached.Err? then Err(cached.reason)
    else if cached.value.Some? then Ok(ChunkResult(cached.value, store, false))
    else
      match ReplyPayload(sv.generate(MapPrompt(t, chunk.themeName, ReviewsBlock(chunk))), sv.parse)
      case None => Ok(ChunkResult(None, store, false))
      case Some(fields) =>
        match SummaryOf(chunk, fields)
        case Err(e) => Err(e)
        case Ok(s) =>
          if key != "" && (s.keyPoints != [] || s.candidateQuotes != []) then
            match CacheSet(store, key, s)
            case Err(e) => Err(e)
            case Ok(st) => Ok(ChunkResult(Some(s), st, true))
          else Ok(ChunkResult(Some(s), store, false))
  }

  /** What one chunk does to the cache: it writes only a summary with some
      point or quote, under the chunk's key, and only when there is a cache;
      otherwise the store is left as it was. */
  lemma ChunkSpecCache(chunk: ThemeChunk, t: PromptTemplate, enabled: bool, store: Json, sv: Services)
    requires SummarizeChunkSpec(chunk, t, enabled, store, sv).Ok?
    ensures var cr := SummarizeChunkSpec(chunk, t, enabled, store, sv).value;
            && (cr.wrote ==>
                  && enabled && cr.summary.Some?
                  && (cr.summary.value.keyPoints != [] || cr.summary.value.candidateQuotes != [])
                  && CacheSet(store, CacheKey(chunk, enabled, sv), cr.summary.value) == Ok(cr.store))
            && (!cr.wrote ==> cr.store == store)
  {
  }

  /** Asking again for a chunk whose summary was just stored is a cache
      hit: the same summary comes back, the model is not consulted and the
      store is not written. */
  lemma SecondCallHits(chunk: ThemeChunk, t: PromptTemplate, store: Json, sv: Services, sv2: Services)
    requires sv2.digest == sv.digest
    requires SummarizeChunkSpec(chunk, t, true, store, sv).Ok? && SummarizeChunkSpec(chunk, t, true, store, sv).value.wrote
    ensures var cr := SummarizeChunkSpec(chunk, t, true, store, sv).value;
            SummarizeChunkSpec(chunk, t, true, cr.store, sv2) == Ok(ChunkResult(cr.summary, cr.store, false))
  {
    var cr := SummarizeChunkSpec(chunk, t, true, store, sv).value;
    var key := CacheKey(chunk, true, sv);
    assert key == CacheKey(chunk, true, sv2);
    GetAfterSet(store, key, cr.summary.value);
  }

  // ---------------------------------------------------------------------
  // All chunks

  /** Where the insight for `themeId` is, if there is one. */
  function FindInsight(insights: seq<ThemeInsight>, themeId: string): (r: Option<nat>)
    ensures r.Some? ==> r.value < |insights| && insights[r.value].themeId == themeId
    ensures r.None? ==> forall i | 0 <= i < |insights| :: insights[i].themeId != themeId
    decreases |insights|
  {
    if insights == [] then None
    else if insights[|insights| - 1].themeId == themeId then Some(|insights| - 1)
    else FindInsight(insights[..|insights| - 1], themeId)
  }

  /** Extending an insight's lists by a summary's and trimming them again. */
  function Absorb(insight: ThemeInsight, s: ChunkSummary, settings: Settings): ThemeInsight
  {
    ThemeInsight(insight.themeId, insight.themeName,
                 Trimmed(insight.keyPoints + s.keyPoints, settings.maxKeyPoints),
                 Trimmed(insight.quotes + s.candidateQuotes, settings.maxQuotesPerTheme))
  }

  /** The insights, in the order their themes were first summarized, after
      one more summary of `chunk`: a theme seen for the first time gets a
      fresh insight named after the chunk. */
  function Merge(insights: seq<ThemeInsight>, chunk: ThemeChunk, s: ChunkSummary, settings: Settings): seq<ThemeInsight>
  {
    match FindInsight(insights, chunk.themeId)
    case None => insights + [Absorb(NewInsight(chunk.themeId, chunk.themeName), s, settings)]
    case Some(i) => insights[i := Absorb(insights[i], s, settings)]
  }

  /** The body of the loop of `summarize_chunks` for one summary. */
  method MergeSummary(insights: seq<ThemeInsight>, chunk: ThemeChunk, s: ChunkSummary, settings: Settings)
    returns (r: seq<ThemeInsight>)
    ensures r == Merge(insights, chunk, s, settings)
  {
    var found := FindInsight(insights, chunk.themeId);
    var insight := if found.None? then NewInsight(chunk.themeId, chunk.themeName) else insights[found.value];
    var points := DedupeAndTrim(insight.keyPoints + s.keyPoints, settings.maxKeyPoints);
    var quotes := DedupeAndTrim(insight.quotes + s.candidateQuotes, settings.maxQuotesPerTheme);
    insight := insight.(keyPoints := points, quotes := quotes);
    if found.None? {
      r := insights + [insight];
    } else {
      r := insights[found.value := insight];
    }
  }

  /** The state of `summarize_chunks` after some chunks: the insights, the
      cache store, and whether the store was written. */
  datatype Progress = Progress(insights: seq<ThemeInsight>, store: Json, wrote: bool)

  /** One turn of the loop of `summarize_chunks`. */
  function Advance(p: Progress, chunk: ThemeChunk, settings: Settings, enabled: bool, sv: Services): Result<Progress>
  {
    match SummarizeChunkSpec(chunk, settings.template, enabled, p.store, sv)
    case Err(e) => Err(e)
    case Ok(cr) =>
      var insights := if cr.summary.Some? then Merge(p.insights, chunk, cr.summary.value, settings) else p.insights;
      Ok(Progress(insights, cr.store, p.wrote || cr.wrote))
  }

  /** `summarize_chunks` before its final persist, on a cache store. */
  function Summarized(chunks: seq<ThemeChunk>, settings: Settings, enabled: bool, store: Json, sv: Services)
    : Result<Progress>
    decreases |chunks|
  {
    if chunks == [] then Ok(Progress([], store, false))
    else
      match Summarized(chunks[..|chunks| - 1], settings, enabled, store, sv)
      case Err(e) => Err(e)
      case Ok(p) => Advance(p, chunks[|chunks| - 1], settings, enabled, sv)
  }

  /** The unfolding of `Summarized` at one more chunk. */
  lemma SummarizedStep(chunks: seq<ThemeChunk>, i: nat, settings: Settings, enabled: bool, store: Json, sv: Services)
    requires i < |chunks|
    ensures Summarized(chunks[..i + 1], settings, enabled, store, sv) ==
            match Summarized(chunks[..i], settings, enabled, store, sv)
            case Err(e) => Err(e)
            case Ok(p) => Advance(p, chunks[i], settings, enabled, sv)
  {
    assert chunks[..i + 1][..i] == chunks[..i];
  }

  /** `summarize_chunks` has gone through the first `i` chunks and reached
      `p`. */
  ghost predicate Ran(chunks: seq<ThemeChunk>, i: int, settings: Settings, enabled: bool, store: Json, sv: Services,
                      p: Progress)
  {
    0 <= i <= |chunks| && Summarized(chunks[..i], settings, enabled, store, sv) == Ok(p)
  }

  /** One more chunk: its outcome continues the run, or ends it with an
      error. */
  lemma RanStep(chunks: seq<ThemeChunk>, i: int, settings: Settings, enabled: bool, store: Json, sv: Services,
                p: Progress, q: Result<Progress>)
    requires Ran(chunks, i, settings, enabled, store, sv, p) && i < |chunks|
    requires q == Advance(p, chunks[i], settings, enabled, sv)
    ensures q.Ok? ==> Ran(chunks, i + 1, settings, enabled, store, sv, q.value)
    ensures q.Err? ==> Summarized(chunks, settings, enabled, store, sv) == q
  {
    SummarizedStep(chunks, i, settings, enabled, store, sv);
    if q.Err? {
      SummarizedErrStays(chunks, i + 1, settings, enabled, store, sv);
    }
  }

  lemma RanEnd(chunks: seq<ThemeChunk>, settings: Settings, enabled: bool, store: Json, sv: Services, p: Progress)
    requires Ran(chunks, |chunks|, settings, enabled, store, sv, p)
    ensures Summarized(chunks, settings, enabled, store, sv) == Ok(p)
  {
    assert chunks[..|chunks|] == chunks;
  }

  /** An exception stops `summarize_chunks` for good. */
  lemma {:induction false} SummarizedErrStays(chunks: seq<ThemeChunk>, j: nat, settings: Settings, enabled: bool,
                                              store: Json, sv: Services)
    requires j <= |chunks| && Summarized(chunks[..j], settings, enabled, store, sv).Err?
    ensures Summarized(chunks, settings, enabled, store, sv) == Summarized(chunks[..j], settings, enabled, store, sv)
    decreases |chunks| - j
  {
    if j == |chunks| {
      assert chunks[..j] == chunks;
    } else {
      SummarizedStep(chunks, j, settings, enabled, store, sv);
      SummarizedErrStays(chunks, j + 1, settings, enabled, store, sv);
    }
  }

  /** The invariant of the aggregated insights: one per theme, each list
      deduplicated and within its limit. */
  ghost predicate InsightsShape(insights: seq<ThemeInsight>, settings: Settings)
  {
    && (forall i, j | 0 <= i < j < |insights| :: insights[i].themeId != insights[j].themeId)
    && (forall i | 0 <= i < |insights| ::
          && Deduped(insights[i].keyPoints) && |insights[i].keyPoints| <= Cap(settings.maxKeyPoints)
          && Deduped(insights[i].quotes) && |insights[i].quotes| <= Cap(settings.maxQuotesPerTheme))
  }

  /** Absorbing a summary leaves an insight's lists deduplicated and
      within their limits, whatever they held before. */
  lemma AbsorbShape(insight: ThemeInsight, s: ChunkSummary, settings: Settings)
    ensures var r := Absorb(insight, s, settings);
            && r.themeId == insight.themeId
            && Deduped(r.keyPoints) && |r.keyPoints| <= Cap(settings.maxKeyPoints)
            && Deduped(r.quotes) && |r.quotes| <= Cap(settings.maxQuotesPerTheme)
  {
    TrimmedFacts(insight.keyPoints + s.keyPoints, settings.maxKeyPoints);
    TrimmedFacts(insight.quotes + s.candidateQuotes, settings.maxQuotesPerTheme);
  }

  /** Every insight belongs to one of `ids`. */
  predicate ThemesAmong(insights: seq<ThemeInsight>, ids: set<string>)
  {
    forall i | 0 <= i < |insights| :: insights[i].themeId in ids
  }

  /** Merging a summary keeps the invariant, gives the chunk's theme an
      insight and adds no other theme. */
  lemma MergeShape(insights: seq<ThemeInsight>, chunk: ThemeChunk, s: ChunkSummary, settings: Settings, ids: set<string>)
    requires InsightsShape(insights, settings) && ThemesAmong(insights, ids)
    ensures InsightsShape(Merge(insights, chunk, s, settings), settings)
    ensures ThemesAmong(Merge(insights, chunk, s, settings), ids + {chunk.themeId})
    ensures FindInsight(Merge(insights, chunk, s, settings), chunk.themeId).Some?
  {
    var found := FindInsight(insights, chunk.themeId);
    var m := Merge(insights, chunk, s, settings);
    if found.None? {
      AbsorbShape(NewInsight(chunk.themeId, chunk.themeName), s, settings);
      assert m == insights + [Absorb(NewInsight(chunk.themeId, chunk.themeName), s, settings)];
      assert m[|insights|].themeId == chunk.themeId;
    } else {
      AbsorbShape(insights[found.value], s, settings);
      assert m[found.value].themeId == chunk.themeId;
    }
  }

  /** The themes of `chunks`. */
  function ChunkThemes(chunks: seq<ThemeChunk>): set<string>
  {
    set i | 0 <= i < |chunks| :: chunks[i].themeId
  }

  /** The themes of `chunks` are those of all but the last, and the last one's. */
  lemma ChunkThemesLast(chunks: seq<ThemeChunk>)
    requires chunks != []
    ensures ChunkThemes(chunks) == ChunkThemes(chunks[..|chunks| - 1]) + {chunks[|chunks| - 1].themeId}
  {
    var init := chunks[..|chunks| - 1];
    forall id | id in ChunkThemes(chunks) ensures id in ChunkThemes(init) + {chunks[|chunks| - 1].themeId} {
      var i :| 0 <= i < |chunks| && chunks[i].themeId == id;
      if i < |init| {
        assert init[i] == chunks[i];
      }
    }
    forall id | id in ChunkThemes(init) ensures id in ChunkThemes(chunks) {
      var i :| 0 <= i < |init| && init[i].themeId == id;
      assert chunks[i] == init[i];
    }
  }

  /** One turn keeps the invariant and adds at most the chunk's theme. */
  lemma AdvanceShape(p: Progress, chunk: ThemeChunk, settings: Settings, enabled: bool, sv: Services, ids: set<string>)
    requires InsightsShape(p.insights, settings) && ThemesAmong(p.insights, ids)
    requires Advance(p, chunk, settings, enabled, sv).Ok?
    ensures InsightsShape(Advance(p, chunk, settings, enabled, sv).value.insights, settings)
    ensures ThemesAmong(Advance(p, chunk, settings, enabled, sv).value.insights, ids + {chunk.themeId})
  {
    var cr := SummarizeChunkSpec(chunk, settings.template, enabled, p.store, sv).value;
    if cr.summary.Some? {
      MergeShape(p.insights, chunk, cr.summary.value, settings, ids);
    }
  }

  /** After any number of chunks, the insights keep the invariant, and
      every insight belongs to the theme of some chunk. */
  lemma {:induction false} SummarizedShape(chunks: seq<ThemeChunk>, settings: Settings, enabled: bool, store: Json,
                                           sv: Services)
    requires Summarized(chunks, settings, enabled, store, sv).Ok?
    ensures InsightsShape(Summarized(chunks, settings, enabled, store, sv).value.insights, settings)
    ensures ThemesAmong(Summarized(chunks, settings, enabled, store, sv).value.insights, ChunkThemes(chunks))
    decreases |chunks|
  {
    if chunks != [] {
      var init := chunks[..|chunks| - 1];
      var last := chunks[|chunks| - 1];
      SummarizedShape(init, settings, enabled, store, sv);
      var p := Summarized(init, settings, enabled, store, sv).value;
      AdvanceShape(p, last, settings, enabled, sv, ChunkThemes(init));
      assert Summarized(chunks, settings, enabled, store, sv) == Advance(p, last, settings, enabled, sv);
      ChunkThemesLast(chunks);
    }
  }

  /** Without a cache, no chunk writes to the store. */
  lemma {:induction false} SummarizedWithoutCache(chunks: seq<ThemeChunk>, settings: Settings, store: Json, sv: Services)
    requires Summarized(chunks, settings, false, store, sv).Ok?
    ensures Summarized(chunks, settings, false, store, sv).value.store == store
    ensures !Summarized(chunks, settings, false, store, sv).value.wrote
    decreases |chunks|
  {
    if chunks != [] {
      SummarizedWithoutCache(chunks[..|chunks| - 1], settings, store, sv);
    }
  }

  /** The themes that have an insight. */
  function InsightThemes(insights: seq<ThemeInsight>): set<string>
  {
    set i | 0 <= i < |insights| :: insights[i].themeId
  }

  /** Merging a summary adds the chunk's theme and no other. */
  lemma MergeThemes(insights: seq<ThemeInsight>, chunk: ThemeChunk, s: ChunkSummary, settings: Settings)
    ensures InsightThemes(Merge(insights, chunk, s, settings)) == InsightThemes(insights) + {chunk.themeId}
  {
    var m := Merge(insights, chunk, s, settings);
    match FindInsight(insights, chunk.themeId)
    case None =>
      assert m == insights + [Absorb(NewInsight(chunk.themeId, chunk.themeName), s, settings)];
      forall id | id in InsightThemes(m) ensures id in InsightThemes(insights) + {chunk.themeId} {
        var i :| 0 <= i < |m| && m[i].themeId == id;
        if i < |insights| {
          assert m[i] == insights[i];
        }
      }
      forall id | id in InsightThemes(insights) ensures id in InsightThemes(m) {
        var i :| 0 <= i < |insights| && insights[i].themeId == id;
        assert m[i] == insights[i];
      }
      assert m[|insights|].themeId == chunk.themeId;
    case Some(k) =>
      assert forall i | 0 <= i < |m| :: m[i].themeId == insights[i].themeId;
      assert insights[k].themeId == chunk.themeId;
  }

  /** The themes of the chunks whose turn of `summarize_chunks` produced a
      summary, cached or fresh. */
  ghost function SummaryThemes(chunks: seq<ThemeChunk>, settings: Settings, enabled: bool, store: Json, sv: Services)
    : set<string>
    requires Summarized(chunks, settings, enabled, store, sv).Ok?
    decreases |chunks|
  {
    if chunks == [] then {}
    else
      var init, last := chunks[..|chunks| - 1], chunks[|chunks| - 1];
      var p := Summarized(init, settings, enabled, store, sv).value;
      var cr := SummarizeChunkSpec(last, settings.template, enabled, p.store, sv).value;
      SummaryThemes(init, settings, enabled, store, sv) + (if cr.summary.Some? then {last.themeId} else {})
  }

  /** The aggregated themes are exactly those of the chunks that produced a
      summary: a chunk whose call raised, or whose reply does not decode to a
      dictionary, adds no theme. */
  lemma {:induction false} SummarizedThemes(chunks: seq<ThemeChunk>, settings: Settings, enabled: bool, store: Json,
                                            sv: Services)
    requires Summarized(chunks, settings, enabled, store, sv).Ok?
    ensures InsightThemes(Summarized(chunks, settings, enabled, store, sv).value.insights)
            == SummaryThemes(chunks, settings, enabled, store, sv)
    decreases |chunks|
  {
    if chunks != [] {
      var init, last := chunks[..|chunks| - 1], chunks[|chunks| - 1];
      SummarizedThemes(init, settings, enabled, store, sv);
      var p := Summarized(init, settings, enabled, store, sv).value;
      var cr := SummarizeChunkSpec(last, settings.template, enabled, p.store, sv).value;
      if cr.summary.Some? {
        MergeThemes(p.insights, last, cr.summary.value, settings);
      }
    }
  }

  /** The store a method sees: the cache's, or none. */
  function StoreOf(cache: ChunkSummaryCache?): Json
    reads cache
  {
    if cache == null then JObject(map[], []) else cache.store
  }

  /** `GeminiTopicSummarizer`: its settings, its cache (`null` when the
      chunk cache is disabled) and the services it calls. */
  class GeminiTopicSummarizer {
    const settings: Settings
    const cache: ChunkSummaryCache?
    const services: Services

    /** `__init__` with a key present: the configured limits, the
        map-stage template, and the cache when it is enabled. */
    constructor (maxKeyPoints: int, maxQuotesPerTheme: int, cache: ChunkSummaryCache?, services: Services)
      ensures settings == Settings(maxKeyPoints, maxQuotesPerTheme, MapPromptTemplate)
      ensures this.cache == cache && this.services == services
    {
      settings := Settings(maxKeyPoints, maxQuotesPerTheme, MapPromptTemplate);
      this.cache := cache;
      this.services := services;
    }

    /** `_summarize_chunk` */
    method SummarizeChunk(chunk: ThemeChunk) returns (r: Result<Option<ChunkSummary>>)
      modifies cache
      ensures var spec := SummarizeChunkSpec(chunk, settings.template, cache != null, old(StoreOf(cache)), services);
              && (spec.Err? ==> r == Err(spec.reason) && (cache != null ==> unchanged(cache)))
              && (spec.Ok? ==> r == Ok(spec.value.summary))
              && (spec.Ok? && cache != null ==>
                    && cache.store == spec.value.store
                    && cache.dirty == (old(cache.dirty) || spec.value.wrote)
                    && cache.saved == old(cache.saved))
    {
      var block := ReviewsBlock(chunk);
      var key := "";
      if cache != null {
        key := services.digest(CacheMaterial(chunk));
      }
      if key != "" {
        var cached := cache.Get(key);
        if cached.Err? {
          return Err(cached.reason);
        }
        if cached.value.Some? {
          return Ok(cached.value);
        }
      }
      var prompt := MapPrompt(settings.template, chunk.themeName, block);
      var payload := ReplyPayload(services.generate(prompt), services.parse);
      if payload.None? {
        return Ok(None);
      }
      var summary := SummaryOf(chunk, payload.value);
      if summary.Err? {
        return Err(summary.reason);
      }
      var s := summary.value;
      if key != "" && cache != null && (s.keyPoints != [] || s.candidateQuotes != []) {
        // `get` has just read the store as a dictionary, so `set` succeeds.
        var stored := cache.Set(key, s);
      }
      return Ok(Some(s));
    }

    /** One turn of the loop of `summarize_chunks`. */
    method AdvanceOn(insights: seq<ThemeInsight>, ghost wrote: bool, chunk: ThemeChunk)
      returns (r: Result<seq<ThemeInsight>>, ghost wrote': bool)
      requires cache != null && wrote ==> cache.dirty
      modifies cache
      ensures var spec := Advance(Progress(insights, old(StoreOf(cache)), wrote), chunk, settings, cache != null, services);
              && (spec.Err? ==> r == Err(spec.reason))
              && (spec.Ok? ==> r == Ok(spec.value.insights) && StoreOf(cache) == spec.value.store && wrote' == spec.value.wrote)
              && (spec.Ok? && cache != null ==> cache.dirty == (old(cache.dirty) || wrote') && cache.saved == old(cache.saved))
    {
      ghost var before := StoreOf(cache);
      var summary := SummarizeChunk(chunk);
      if summary.Err? {
        return Err(summary.reason), wrote;
      }
      var merged := insights;
      if summary.value.Some? {
        merged := MergeSummary(insights, chunk, summary.value.value, settings);
      }
      wrote' := wrote || SummarizeChunkSpec(chunk, settings.template, cache != null, before, services).value.wrote;
      r := Ok(merged);
    }

    /** `summarize_chunks`: the insights in the order their themes were
        first summarized; with a cache, its store ends as the chunks left it
        and is persisted if anything was written since it was last clean. */
    method SummarizeChunks(chunks: seq<ThemeChunk>) returns (r: Result<seq<ThemeInsight>>)
      modifies cache
      ensures var spec := Summarized(chunks, settings, cache != null, old(StoreOf(cache)), services);
              && (spec.Err? ==> r == Err(spec.reason))
              && (spec.Ok? ==> r == Ok(spec.value.insights))
              && (spec.Ok? && cache != null ==>
                    && cache.store == spec.value.store && !cache.dirty
                    && cache.saved == if old(cache.dirty) || spec.value.wrote then Some(spec.value.store) else old(cache.saved))
    {
      ghost var wrote;
      r, wrote := RunChunks(chunks);
      if r.Err? {
        return;
      }
      if cache != null {
        cache.Persist();
      }
    }

    /** One turn of the loop of `summarize_chunks` within the run over
        `chunks`: it continues the run, or ends the whole run with an
        error. */
    method StepChunk(chunks: seq<ThemeChunk>, i: nat, ghost store0: Json, insights: seq<ThemeInsight>, ghost wrote: bool)
      returns (r: Result<seq<ThemeInsight>>, ghost wrote': bool)
      requires i < |chunks|
      requires Ran(chunks, i, settings, cache != null, store0, services, Progress(insights, StoreOf(cache), wrote))
      requires cache != null && wrote ==> cache.dirty
      modifies cache
      ensures r.Err? ==> Summarized(chunks, settings, cache != null, store0, services) == Err(r.reason)
      ensures r.Ok? ==> Ran(chunks, i + 1, settings, cache != null, store0, services, Progress(r.value, StoreOf(cache), wrote'))
      ensures r.Ok? ==> (wrote ==> wrote')
      ensures r.Ok? && cache != null ==> cache.dirty == (old(cache.dirty) || wrote') && cache.saved == old(cache.saved)
    {
      ghost var p := Progress(insights, StoreOf(cache), wrote);
      r, wrote' := AdvanceOn(insights, wrote, chunks[i]);
      RanStep(chunks, i, settings, cache != null, store0, services, p,
              Advance(p, chunks[i], settings, cache != null, services));
    }

    /** The loop of `summarize_chunks`, before the final persist. */
    method RunChunks(chunks: seq<ThemeChunk>) returns (r: Result<seq<ThemeInsight>>, ghost wrote: bool)
      modifies cache
      ensures var spec := Summarized(chunks, settings, cache != null, old(StoreOf(cache)), services);
              && (spec.Err? ==> r == Err(spec.reason))
              && (spec.Ok? ==> r == Ok(spec.value.insights) && StoreOf(cache) == spec.value.store && wrote == spec.value.wrote)
              && (spec.Ok? && cache != null ==> cache.dirty == (old(cache.dirty) || wrote) && cache.saved == old(cache.saved))
    {
      ghost var store0 := StoreOf(cache);
      var aggregated: seq<ThemeInsight> := [];
      wrote := false;
      var i := 0;
      while i < |chunks|
        invariant Ran(chunks, i, settings, cache != null, store0, services, Progress(aggregated, StoreOf(cache), wrote))
        invariant cache != null ==> cache.dirty == (old(cache.dirty) || wrote) && cache.saved == old(cache.saved)
      {
        var next;
        next, wrote := StepChunk(chunks, i, store0, aggregated, wrote);
        if next.Err? {
          return Err(next.reason), wrote;
        }
        aggregated := next.value;
        i := i + 1;
      }
      RanEnd(chunks, settings, cache != null, store0, services, Progress(aggregated, StoreOf(cache), wrote));
      r := Ok(aggregated);
    }

    /** `flush_cache` */
    method FlushCache()
      modifies cache
      ensures cache != null ==> cache.store == old(cache.store) && !cache.dirty
      ensures cache != null ==> cache.saved == if old(cache.dirty) then Some(old(cache.store)) else old(cache.saved)
    {
      if cache != null {
        cache.Persist();
      }
    }
  }
}
