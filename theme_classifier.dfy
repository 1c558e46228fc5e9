/** Classification of reviews into the fixed themes
    (src/layer2/theme_classifier.py): batching, the bounded retry loop
    around the model call, dispatch on the decoded response, the
    construction of classifications with default fill-in, theme-id
    normalisation with substring fallback, and the all-default fallback.
    The model is the function `respond`: `respond(b, a)` is the response
    text of attempt `a` for batch `b`, or `None` when the call raised. */
module ThemeClassifier {
  import opened Common
  import opened JsonValue
  import opened Validator
  import opened ThemeConfig

  datatype ReviewClassification = ReviewClassification(reviewId: string, themeId: string, themeName: string,
                                                       reason: Json)

  /** The knobs the modelled logic reads; the model name and temperature
      only reach the model call. */
  datatype ThemeClassifierConfig = ThemeClassifierConfig(batchSize: int, maxRetries: int)

  const DefaultClassifierConfig := ThemeClassifierConfig(8, 2)

  const DefaultReason := JString("Default assignment (classification failed)")
  const FallbackReason := JString("Fallback assignment (LLM classification failed)")
  const MissingReason := JString("No reason provided")

  // ---------------------------------------------------------------------
  // Theme-id normalisation

  /** A table key and an id are related when one contains the other. */
  predicate Related(t: string, key: string)
  {
    Contains(t, key) || Contains(key, t)
  }

  /** The position of the first key at or after `k` that is related to
      `t`, scanning the keys in table order. */
  function FuzzyMatchFrom(t: string, ids: seq<string>, k: nat): (r: Option<nat>)
    requires k <= |ids|
    ensures r.Some? ==> k <= r.value < |ids| && Related(t, ids[r.value])
    ensures r.Some? ==> forall j | k <= j < r.value :: !Related(t, ids[j])
    ensures r.None? ==> forall j | k <= j < |ids| :: !Related(t, ids[j])
    decreases |ids| - k
  {
    if k == |ids| then None
    else if Related(t, ids[k]) then Some(k)
    else FuzzyMatchFrom(t, ids, k + 1)
  }

  /** `_validate_theme_id` as written. An empty id is contained in every
      key, so it matches the first key instead of falling back. */
  function ValidatedThemeIdAsWritten(themeId: string): (r: string)
    ensures r in GetAllThemeIds()
  {
    DefaultThemeIsFixed();
    var t := Strip(Lower(themeId));
    if t in GetAllThemeIds() then t
    else
      match FuzzyMatchFrom(t, GetAllThemeIds(), 0)
      case Some(k) => GetAllThemeIds()[k]
      case None => DefaultThemeId
  }

  /** A missing `chosen_theme` is classified as the first theme. */
  lemma EmptyThemeIdAsWritten()
    ensures ValidatedThemeIdAsWritten("") == "glitches" != DefaultThemeId
  {
    var ids := GetAllThemeIds();
    assert Strip(Lower("")) == "";
    ContainsEmpty(ids[0]);
    assert ids[0] == "glitches";
  }

  /** `_validate_theme_id` with the evident intent for an empty id: it
      falls back to the default theme. */
  function ValidatedThemeId(themeId: string): (r: string)
    ensures r in GetAllThemeIds()
  {
    DefaultThemeIsFixed();
    var t := Strip(Lower(themeId));
    if t == [] then DefaultThemeId
    else if t in GetAllThemeIds() then t
    else
      match FuzzyMatchFrom(t, GetAllThemeIds(), 0)
      case Some(k) => GetAllThemeIds()[k]
      case None => DefaultThemeId
  }

  /** The normalised id is always a key: a key given in any case or with
      surrounding whitespace is kept, a blank id gets the default, and
      any other id gets the first key in table order related to it by
      containment, or the default exactly when no key is related. */
  lemma ValidatedThemeIdCases(themeId: string)
    ensures var t := Strip(Lower(themeId));
            var ids := GetAllThemeIds();
            var r := ValidatedThemeId(themeId);
            && (t == [] ==> r == DefaultThemeId)
            && (t != [] && t in ids ==> r == t)
            && (t != [] && t !in ids ==>
                  || (exists p | 0 <= p < |ids| :: r == ids[p] && Related(t, ids[p])
                        && forall j | 0 <= j < p :: !Related(t, ids[j]))
                  || (r == DefaultThemeId && forall j | 0 <= j < |ids| :: !Related(t, ids[j])))
            && (t != [] && t !in ids && (exists j | 0 <= j < |ids| :: Related(t, ids[j])) ==>
                  Related(t, r))
            && (ValidatedThemeIdAsWritten(themeId) != r ==> t == [])
  {
    var t := Strip(Lower(themeId));
    if t != [] {
      assert ValidatedThemeIdAsWritten(themeId) == ValidatedThemeId(themeId);
      ValidatedThemeIdAsWrittenCases(themeId);
    }
  }

  /** Normalising twice is normalising once. */
  lemma ValidatedThemeIdIdempotent(themeId: string)
    ensures ValidatedThemeId(ValidatedThemeId(themeId)) == ValidatedThemeId(themeId)
  {
    var r := ValidatedThemeId(themeId);
    ThemeIdsNormalised();
    assert Strip(Lower(r)) == r;
    assert r != [];
  }

  /** As written, an id that is a key is kept, and any other id, the
      empty one included, gets the first key in table order related to it
      by containment, or the default exactly when no key is related. */
  lemma ValidatedThemeIdAsWrittenCases(themeId: string)
    ensures var t := Strip(Lower(themeId));
            var ids := GetAllThemeIds();
            var r := ValidatedThemeIdAsWritten(themeId);
            && (t in ids ==> r == t)
            && (t !in ids ==>
                  || (exists p | 0 <= p < |ids| :: r == ids[p] && Related(t, ids[p])
                        && forall j | 0 <= j < p :: !Related(t, ids[j]))
                  || (r == DefaultThemeId && forall j | 0 <= j < |ids| :: !Related(t, ids[j])))
  {
    var t := Strip(Lower(themeId));
    var ids := GetAllThemeIds();
    if t !in ids {
      match FuzzyMatchFrom(t, ids, 0)
      case Some(p) =>
        assert ValidatedThemeIdAsWritten(themeId) == ids[p];
      case None =>
    }
  }

  /** As written too, validating a validated id changes nothing. */
  lemma ValidatedThemeIdAsWrittenIdempotent(themeId: string)
    ensures ValidatedThemeIdAsWritten(ValidatedThemeIdAsWritten(themeId)) == ValidatedThemeIdAsWritten(themeId)
  {
    var r := ValidatedThemeIdAsWritten(themeId);
    ThemeIdsNormalised();
    assert Strip(Lower(r)) == r;
  }

  /** `_validate_theme_id`: a loop over the keys with an early return. */
  method ValidateThemeId(themeId: string) returns (r: string)
    ensures r == ValidatedThemeIdAsWritten(themeId)
  {
    var t := Strip(Lower(themeId));
    var ids := GetAllThemeIds();
    if t in ids {
      return t;
    }
    for k := 0 to |ids|
      invariant FuzzyMatchFrom(t, ids, k) == FuzzyMatchFrom(t, ids, 0)
    {
      if Related(t, ids[k]) {
        return ids[k];
      }
    }
    return DefaultThemeId;
  }

  // ---------------------------------------------------------------------
  // Response parsing

  /** The text after the first line break, or all of it if there is none:
      `s.split("\n", 1)[-1]`. */
  function AfterFirstLine(s: string): (r: string)
    ensures |r| <= |s|
  {
    match IndexOf(s, '\n')
    case None => s
    case Some(i) => s[i + 1..]
  }

  /** The payload handed to the decoder in `_parse_response`, as written:
      after the "json" tag of a fence is removed, the first line is still
      dropped, which is the first line of the JSON itself. */
  function CleanPayloadAsWritten(payload: string): string
  {
    var cleaned := Strip(payload);
    if StartsWith(cleaned, "```") then
      var unfenced := Trim(cleaned, '`');
      var untagged := if StartsWith(unfenced, "json") then Strip(unfenced[4..]) else unfenced;
      AfterFirstLine(untagged)
    else cleaned
  }

  /** The payload handed to the decoder with the evident intent: the first
      line is dropped only when it is a tag other than "json". */
  function CleanPayload(payload: string): string
  {
    var cleaned := Strip(payload);
    if StartsWith(cleaned, "```") then
      var unfenced := Trim(cleaned, '`');
      if StartsWith(unfenced, "json") then Strip(unfenced[4..]) else AfterFirstLine(unfenced)
    else cleaned
  }

  function Fenced(body: string): string
  {
    "```json\n" + body + "\n```"
  }

  /** Unfencing `Fenced(body)`: both versions remove the fence and the
      tag; the intended one then stops, the one as written also drops the
      body's first line. */
  lemma FencedPayload(body: string)
    requires body != [] && IsStripped(body)
    requires body[0] != '`' && body[|body| - 1] != '`'
    ensures CleanPayload(Fenced(body)) == body
    ensures CleanPayloadAsWritten(Fenced(body)) == AfterFirstLine(body)
  {
    var inner := "json\n" + body + "\n";
    Unfence(body);
    Untag(body);
    Unfenced(Fenced(body), inner, body);
  }

  /** Both versions on a fenced payload whose unfenced text starts with
      the "json" tag. */
  lemma Unfenced(p: string, inner: string, body: string)
    requires Strip(p) == p && StartsWith(p, "```") && Trim(p, '`') == inner
    requires |inner| >= 4 && StartsWith(inner, "json") && Strip(inner[4..]) == body
    ensures CleanPayload(p) == body
    ensures CleanPayloadAsWritten(p) == AfterFirstLine(body)
  {
    UnfencedIntended(p, inner, body);
    UnfencedAsWritten(p, inner, body);
  }

  lemma UnfencedIntended(p: string, inner: string, body: string)
    requires Strip(p) == p && StartsWith(p, "```") && Trim(p, '`') == inner
    requires |inner| >= 4 && StartsWith(inner, "json") && Strip(inner[4..]) == body
    ensures CleanPayload(p) == body
  {
  }

  lemma UnfencedAsWritten(p: string, inner: string, body: string)
    requires Strip(p) == p && StartsWith(p, "```") && Trim(p, '`') == inner
    requires |inner| >= 4 && StartsWith(inner, "json") && Strip(inner[4..]) == body
    ensures CleanPayloadAsWritten(p) == AfterFirstLine(body)
  {
  }

  /** The "json" tag and the line breaks around the body are removed. */
  lemma Untag(body: string)
    requires body != [] && IsStripped(body)
    ensures StartsWith("json\n" + body + "\n", "json")
    ensures Strip(("json\n" + body + "\n")[4..]) == body
  {
    var inner := "json\n" + body + "\n";
    assert inner[..4] == "json";
    assert inner[4..] == "\n" + body + "\n";
    StripSurrounded("\n", body, "\n");
  }

  /** The fence around `Fenced(body)` is recognised and removed. */
  lemma Unfence(body: string)
    requires body != [] && body[0] != '`' && body[|body| - 1] != '`'
    ensures Strip(Fenced(body)) == Fenced(body)
    ensures StartsWith(Fenced(body), "```")
    ensures Trim(Fenced(body), '`') == "json\n" + body + "\n"
  {
    FenceTrimmed(body);
    FenceStripped(body);
  }

  lemma FenceTrimmed(body: string)
    requires body != [] && body[0] != '`' && body[|body| - 1] != '`'
    ensures StartsWith(Fenced(body), "```")
    ensures Trim(Fenced(body), '`') == "json\n" + body + "\n"
  {
    var p := Fenced(body);
    var inner := "json\n" + body + "\n";
    assert p == "```" + inner + "```";
    assert p[..3] == "```";
    TrimSurrounded("```", inner, "```", '`');
  }

  lemma FenceStripped(body: string)
    ensures Strip(Fenced(body)) == Fenced(body)
  {
    var p := Fenced(body);
    assert IsStripped(p) by {
      assert p[0] == '`' && p[|p| - 1] == '`';
    }
    StripOfStripped(p);
  }

  /** A fenced JSON text spread over several lines reaches the decoder
      without its first line. */
  lemma FencedMultiLineAsWritten()
    ensures CleanPayloadAsWritten(Fenced("[\n1]")) == "1]"
    ensures CleanPayload(Fenced("[\n1]")) == "[\n1]"
  {
    FencedPayload("[\n1]");
    assert IndexOf("[\n1]", '\n') == Some(1);
  }

  /** `_parse_response`: the decoded value `build` iterates over. A list
      is kept, a "reviews" member of an object is returned, any other value
      is wrapped in a one-element list, and a decoding failure gives []. */
  function ParseResponse(payload: string, parse: string -> Option<Json>): (r: Json)
    ensures parse(CleanPayloadAsWritten(payload)).None? ==> r == JArray([])
    ensures parse(CleanPayloadAsWritten(payload)).Some? ==>
              var data := parse(CleanPayloadAsWritten(payload)).value;
              if data.JArray? then r == data
              else if data.JObject? && "reviews" in data.fields then r == data.fields["reviews"]
              else r == JArray([data])
  {
    match parse(CleanPayloadAsWritten(payload))
    case None => JArray([])
    case Some(data) =>
      if data.JArray? then data
      else if data.JObject? && "reviews" in data.fields then data.fields["reviews"]
      else JArray([data])
  }

  /** `for item in parsed`: a list yields its elements; a non-empty string
      or object yields characters or keys, whose `get` raises
      `AttributeError` before anything is appended; a scalar is not
      iterable. */
  function Items(parsed: Json): Result<seq<Json>>
  {
    match parsed
    case JArray(items) => Ok(items)
    case JString(s) => if s == [] then Ok([]) else Err("AttributeError")
    case JObject(_, keys) => if keys == [] then Ok([]) else Err("AttributeError")
    case _ => Err("TypeError")
  }

  // ---------------------------------------------------------------------
  // Building classifications

  function BatchIds(batch: seq<ReviewModel>): set<string>
  {
    set k | 0 <= k < |batch| :: batch[k].reviewId
  }

  /** One parsed entry of `_build_classifications`: `None` when it is
      skipped, an error where Python raises. */
  function Entry(item: Json, ids: set<string>): (r: Result<Option<ReviewClassification>>)
    ensures r.Ok? && r.value.Some? ==>
              && r.value.value.reviewId in ids
              && r.value.value.themeId in GetAllThemeIds()
              && r.value.value.themeName == ThemeName(r.value.value.themeId)
  {
    if !item.JObject? then Err("AttributeError")
    else
      var reviewId := Get(item.fields, "review_id", JString(""));
      if !Truthy(reviewId) then Ok(None)
      else if reviewId.JArray? || reviewId.JObject? then Err("TypeError")
      else if !reviewId.JString? || reviewId.s !in ids then Ok(None)
      else
        var chosen := Get(item.fields, "chosen_theme", JString(""));
        if !chosen.JString? then Err("AttributeError")
        else
          var themeId := ValidatedThemeIdAsWritten(Strip(Lower(chosen.s)));
          var reason := Get(item.fields, "short_reason", MissingReason);
          Ok(Some(ReviewClassification(reviewId.s, themeId, ThemeName(themeId), reason)))
  }

  /** The classifications taken from the model's entries, in their order;
      the first entry that raises makes the whole attempt fail. */
  function FromEntries(items: seq<Json>, ids: set<string>): Result<seq<ReviewClassification>>
    decreases |items|
  {
    if items == [] then Ok([])
    else
      match FromEntries(items[..|items| - 1], ids)
      case Err(e) => Err(e)
      case Ok(cs) =>
        match Entry(items[|items| - 1], ids)
        case Err(e) => Err(e)
        case Ok(None) => Ok(cs)
        case Ok(Some(c)) => Ok(cs + [c])
  }

  function ClassifiedIds(cs: seq<ReviewClassification>): set<string>
  {
    set k | 0 <= k < |cs| :: cs[k].reviewId
  }

  function DefaultFor(review: ReviewModel, reason: Json): ReviewClassification
  {
    ReviewClassification(review.reviewId, DefaultThemeId, ThemeName(DefaultThemeId), reason)
  }

  /** The default classifications for the batch reviews the model left
      out, in batch order. */
  function Defaults(batch: seq<ReviewModel>, classified: set<string>): seq<ReviewClassification>
    decreases |batch|
  {
    if batch == [] then []
    else
      Defaults(batch[..|batch| - 1], classified)
      + (if batch[|batch| - 1].reviewId in classified then [] else [DefaultFor(batch[|batch| - 1], DefaultReason)])
  }

  /** What `_build_classifications` returns or raises. */
  function Built(items: seq<Json>, batch: seq<ReviewModel>): Result<seq<ReviewClassification>>
  {
    match FromEntries(items, BatchIds(batch))
    case Err(e) => Err(e)
    case Ok(cs) => Ok(cs + Defaults(batch, ClassifiedIds(cs)))
  }

  /** The first loop of `_build_classifications`: the entries in order,
      stopping at the first one that raises. */
  method ModelEntries(items: seq<Json>, lookup: set<string>) returns (r: Result<seq<ReviewClassification>>)
    ensures r == FromEntries(items, lookup)
  {
    var classifications: seq<ReviewClassification> := [];
    for k := 0 to |items|
      invariant FromEntries(items[..k], lookup) == Ok(classifications)
    {
      assert items[..k + 1][..k] == items[..k];
      var entry := Entry(items[k], lookup);
      if entry.Err? {
        assert FromEntries(items[..k + 1], lookup) == Err(entry.reason);
        FromEntriesErr(items, k + 1, lookup);
        return Err(entry.reason);
      }
      if entry.value.Some? {
        classifications := classifications + [entry.value.value];
      }
    }
    assert items[..|items|] == items;
    return Ok(classifications);
  }

  /** `_build_classifications`: the model's entries, then a default for
      every batch review they leave out. */
  method BuildClassifications(items: seq<Json>, batch: seq<ReviewModel>)
    returns (r: Result<seq<ReviewClassification>>)
    ensures r == Built(items, batch)
  {
    var lookup := BatchIds(batch);
    r := ModelEntries(items, lookup);
    if r.Err? {
      return;
    }
    var classifications := r.value;
    var classifiedIds := ClassifiedIds(classifications);
    var model := classifications;
    for k := 0 to |batch|
      invariant classifications == model + Defaults(batch[..k], classifiedIds)
    {
      assert batch[..k + 1][..k] == batch[..k];
      var review := batch[k];
      if review.reviewId !in classifiedIds {
        classifications := classifications + [DefaultFor(review, DefaultReason)];
      }
    }
    assert batch[..|batch|] == batch;
    return Ok(classifications);
  }

  /** Once an entry raises, the attempt fails whatever follows it. */
  lemma {:induction false} FromEntriesErr(items: seq<Json>, k: nat, ids: set<string>)
    requires k <= |items| && FromEntries(items[..k], ids).Err?
    ensures FromEntries(items, ids) == FromEntries(items[..k], ids)
    decreases |items| - k
  {
    if k == |items| {
      assert items[..k] == items;
    } else {
      assert items[..k + 1][..k] == items[..k];
      FromEntriesErr(items, k + 1, ids);
    }
  }

  /** Model entries carry batch ids and resolved themes. */
  lemma {:induction false} FromEntriesFacts(items: seq<Json>, ids: set<string>)
    requires FromEntries(items, ids).Ok?
    ensures forall c | c in FromEntries(items, ids).value ::
              c.reviewId in ids && c.themeId in GetAllThemeIds() && c.themeName == ThemeName(c.themeId)
    decreases |items|
  {
    if items != [] {
      FromEntriesFacts(items[..|items| - 1], ids);
    }
  }

  /** The defaults are exactly the batch reviews not yet classified. */
  lemma {:induction false} DefaultsFacts(batch: seq<ReviewModel>, classified: set<string>)
    ensures forall c | c in Defaults(batch, classified) ::
              c.reviewId in BatchIds(batch) && c.reviewId !in classified
              && c.themeId == DefaultThemeId && c.themeName == ThemeName(DefaultThemeId)
              && c.reason == DefaultReason
    ensures forall k | 0 <= k < |batch| && batch[k].reviewId !in classified ::
              DefaultFor(batch[k], DefaultReason) in Defaults(batch, classified)
    decreases |batch|
  {
    if batch != [] {
      var init := batch[..|batch| - 1];
      DefaultsFacts(init, classified);
      assert forall k | 0 <= k < |init| :: init[k] == batch[k];
      assert BatchIds(init) <= BatchIds(batch);
    }
  }

  /** Every output of `_build_classifications` is for a batch review, has a
      table theme and that theme's name. */
  lemma BuiltFacts(items: seq<Json>, batch: seq<ReviewModel>)
    requires Built(items, batch).Ok?
    ensures forall c | c in Built(items, batch).value ::
              c.reviewId in BatchIds(batch) && c.themeId in GetAllThemeIds()
              && c.themeName == ThemeName(c.themeId)
  {
    var cs := FromEntries(items, BatchIds(batch)).value;
    var defaults := Defaults(batch, ClassifiedIds(cs));
    FromEntriesFacts(items, BatchIds(batch));
    DefaultsFacts(batch, ClassifiedIds(cs));
    DefaultThemeIsFixed();
    forall c: ReviewClassification | c in cs + defaults
      ensures c.reviewId in BatchIds(batch) && c.themeId in GetAllThemeIds() && c.themeName == ThemeName(c.themeId)
    {
      if c !in cs {
        assert c in defaults;
      }
    }
  }

  /** Every batch review is classified at least once. */
  lemma BuiltCovers(items: seq<Json>, batch: seq<ReviewModel>)
    requires Built(items, batch).Ok?
    ensures forall k | 0 <= k < |batch| :: batch[k].reviewId in ClassifiedIds(Built(items, batch).value)
  {
    var cs := FromEntries(items, BatchIds(batch)).value;
    var defaults := Defaults(batch, ClassifiedIds(cs));
    DefaultsFacts(batch, ClassifiedIds(cs));
    var all := cs + defaults;
    assert all == Built(items, batch).value;
    forall k | 0 <= k < |batch| ensures batch[k].reviewId in ClassifiedIds(all) {
      if batch[k].reviewId in ClassifiedIds(cs) {
        var j :| 0 <= j < |cs| && cs[j].reviewId == batch[k].reviewId;
        assert all[j] == cs[j];
      } else {
        var d := DefaultFor(batch[k], DefaultReason);
        var j :| 0 <= j < |defaults| && defaults[j] == d;
        assert all[|cs| + j] == d;
      }
    }
  }

  // ---------------------------------------------------------------------
  // Fallback, retries and batching

  /** `_fallback_classifications`: one default per review, in order. */
  function Fallback(reviews: seq<ReviewModel>): (r: seq<ReviewClassification>)
    ensures |r| == |reviews|
    ensures forall k | 0 <= k < |reviews| ::
              r[k].reviewId == reviews[k].reviewId && r[k].themeId == DefaultThemeId && r[k].reason == FallbackReason
  {
    seq(|reviews|, k requires 0 <= k < |reviews| => DefaultFor(reviews[k], FallbackReason))
  }

  /** The fallback reason mentions the fallback. */
  lemma FallbackReasonMentionsFallback()
    ensures Contains(FallbackReason.s, "Fallback")
  {
    ContainsPrefix(FallbackReason.s, "Fallback");
  }

  /** One attempt: the call raised, or its text was parsed and built. */
  function Attempt(response: Option<string>, batch: seq<ReviewModel>, parse: string -> Option<Json>)
    : Result<seq<ReviewClassification>>
  {
    match response
    case None => Err("model call failed")
    case Some(text) =>
      match Items(ParseResponse(text, parse))
      case Err(e) => Err(e)
      case Ok(items) => Built(items, batch)
  }

  /** `_classify_batch` from attempt `a` on: the first attempt that succeeds,
      or the fallback once `maxRetries + 1` attempts have failed. */
  function BatchOutcome(batch: seq<ReviewModel>, b: nat, a: nat, maxRetries: nat,
                        respond: (nat, nat) -> Option<string>, parse: string -> Option<Json>)
    : seq<ReviewClassification>
    decreases maxRetries + 1 - a
  {
    if a > maxRetries then Fallback(batch)
    else
      match Attempt(respond(b, a), batch, parse)
      case Ok(cs) => cs
      case Err(_) => BatchOutcome(batch, b, a + 1, maxRetries, respond, parse)
  }

  /** `_classify_batch` */
  method ClassifyBatch(batch: seq<ReviewModel>, b: nat, maxRetries: nat,
                       respond: (nat, nat) -> Option<string>, parse: string -> Option<Json>)
    returns (r: seq<ReviewClassification>)
    ensures r == BatchOutcome(batch, b, 0, maxRetries, respond, parse)
  {
    for attempt := 0 to maxRetries + 1
      invariant BatchOutcome(batch, b, attempt, maxRetries, respond, parse)
                == BatchOutcome(batch, b, 0, maxRetries, respond, parse)
    {
      var response := respond(b, attempt);
      if response.Some? {
        var parsed := ParseResponse(response.value, parse);
        var items := Items(parsed);
        if items.Ok? {
          var built := BuildClassifications(items.value, batch);
          if built.Ok? {
            return built.value;
          }
        }
      }
    }
    return Fallback(batch);
  }

  /** Whatever the model does, each batch review is classified at least
      once and every classification is for a batch review and a table
      theme. */
  lemma {:induction false} BatchOutcomeCovers(batch: seq<ReviewModel>, b: nat, a: nat, maxRetries: nat,
                                              respond: (nat, nat) -> Option<string>, parse: string -> Option<Json>)
    ensures forall c | c in BatchOutcome(batch, b, a, maxRetries, respond, parse) ::
              c.reviewId in BatchIds(batch) && c.themeId in GetAllThemeIds()
              && c.themeName == ThemeName(c.themeId)
    ensures forall k | 0 <= k < |batch| ::
              batch[k].reviewId in ClassifiedIds(BatchOutcome(batch, b, a, maxRetries, respond, parse))
    decreases maxRetries + 1 - a
  {
    if a > maxRetries {
      var fb := Fallback(batch);
      DefaultThemeIsFixed();
      forall c | c in fb
        ensures c.reviewId in BatchIds(batch) && c.themeId in GetAllThemeIds()
                && c.themeName == ThemeName(c.themeId)
      {
        var j :| 0 <= j < |fb| && fb[j] == c;
      }
      forall k | 0 <= k < |batch| ensures batch[k].reviewId in ClassifiedIds(fb) {
        assert fb[k].reviewId == batch[k].reviewId;
      }
    } else {
      var response := respond(b, a);
      var attempt := Attempt(response, batch, parse);
      if attempt.Ok? {
        var items := Items(ParseResponse(response.value, parse)).value;
        BuiltFacts(items, batch);
        BuiltCovers(items, batch);
      } else {
        BatchOutcomeCovers(batch, b, a + 1, maxRetries, respond, parse);
      }
    }
  }

  /** When every attempt fails the batch gets the fallback. */
  lemma {:induction false} AllAttemptsFail(batch: seq<ReviewModel>, b: nat, a: nat, maxRetries: nat,
                                           respond: (nat, nat) -> Option<string>, parse: string -> Option<Json>)
    requires forall i | a <= i <= maxRetries :: Attempt(respond(b, i), batch, parse).Err?
    ensures BatchOutcome(batch, b, a, maxRetries, respond, parse) == Fallback(batch)
    decreases maxRetries + 1 - a
  {
    if a <= maxRetries {
      AllAttemptsFail(batch, b, a + 1, maxRetries, respond, parse);
    }
  }

  /** What `classify_reviews` returns for the batches from `b` on. */
  function FromBatches(batches: seq<seq<ReviewModel>>, b: nat, maxRetries: nat,
                       respond: (nat, nat) -> Option<string>, parse: string -> Option<Json>)
    : seq<ReviewClassification>
    requires b <= |batches|
    decreases |batches| - b
  {
    if b == |batches| then []
    else BatchOutcome(batches[b], b, 0, maxRetries, respond, parse) + FromBatches(batches, b + 1, maxRetries, respond, parse)
  }

  /** What `classify_reviews` returns or raises: a zero batch size makes
      `range` raise, a negative one yields no batch, and a negative retry
      bound makes `_classify_batch` return `None`, which `extend` rejects. */
  function Classified(reviews: seq<ReviewModel>, config: ThemeClassifierConfig,
                      respond: (nat, nat) -> Option<string>, parse: string -> Option<Json>)
    : Result<seq<ReviewClassification>>
  {
    if reviews == [] then Ok([])
    else if config.batchSize == 0 then Err("ValueError")
    else if config.batchSize < 0 then Ok([])
    else if config.maxRetries < 0 then Err("TypeError")
    else Ok(FromBatches(Chunks(reviews, config.batchSize), 0, config.maxRetries, respond, parse))
  }

  /** `classify_reviews` */
  method ClassifyReviews(reviews: seq<ReviewModel>, config: ThemeClassifierConfig,
                         respond: (nat, nat) -> Option<string>, parse: string -> Option<Json>)
    returns (r: Result<seq<ReviewClassification>>)
    ensures r == Classified(reviews, config, respond, parse)
  {
    if reviews == [] {
      return Ok([]);
    }
    if config.batchSize == 0 {
      return Err("ValueError");
    }
    if config.batchSize < 0 {
      return Ok([]);
    }
    var batches := Chunks(reviews, config.batchSize);
    if config.maxRetries < 0 {
      return Err("TypeError");
    }
    var classifications: seq<ReviewClassification> := [];
    for b := 0 to |batches|
      invariant classifications + FromBatches(batches, b, config.maxRetries, respond, parse)
                == FromBatches(batches, 0, config.maxRetries, respond, parse)
    {
      var batchClassifications := ClassifyBatch(batches[b], b, config.maxRetries, respond, parse);
      classifications := classifications + batchClassifications;
    }
    assert FromBatches(batches, |batches|, config.maxRetries, respond, parse) == [];
    assert classifications + [] == classifications;
    assert Classified(reviews, config, respond, parse)
           == Ok(FromBatches(batches, 0, config.maxRetries, respond, parse));
    return Ok(classifications);
  }

  /** The classifications from the batches `b..` are for their reviews
      and table themes. */
  lemma {:induction false} FromBatchesFacts(batches: seq<seq<ReviewModel>>, b: nat, maxRetries: nat,
                                            respond: (nat, nat) -> Option<string>,
                                            parse: string -> Option<Json>)
    requires b <= |batches|
    ensures forall c | c in FromBatches(batches, b, maxRetries, respond, parse) ::
              c.reviewId in BatchIds(Flatten(batches[b..])) && c.themeId in GetAllThemeIds()
    decreases |batches| - b
  {
    if b < |batches| {
      FromBatchesFacts(batches, b + 1, maxRetries, respond, parse);
      BatchOutcomeCovers(batches[b], b, 0, maxRetries, respond, parse);
      FlattenStep(batches, b);
      var here := BatchOutcome(batches[b], b, 0, maxRetries, respond, parse);
      var rest := FromBatches(batches, b + 1, maxRetries, respond, parse);
      var later := Flatten(batches[b + 1..]);
      var all := Flatten(batches[b..]);
      forall c: ReviewClassification | c in here + rest ensures c.reviewId in BatchIds(all) {
        if c in here {
          var k :| 0 <= k < |batches[b]| && batches[b][k].reviewId == c.reviewId;
          assert all[k] == batches[b][k];
        } else {
          var k :| 0 <= k < |later| && later[k].reviewId == c.reviewId;
          assert all[|batches[b]| + k] == later[k];
        }
      }
    }
  }

  /** The reviews of the batches `b..` are the first batch's and then the
      rest's. */
  lemma FlattenStep(batches: seq<seq<ReviewModel>>, b: nat)
    requires b < |batches|
    ensures Flatten(batches[b..]) == batches[b] + Flatten(batches[b + 1..])
  {
    assert batches[b..] == [batches[b]] + batches[b + 1..];
    FlattenConcat([batches[b]], batches[b + 1..]);
    assert Flatten([batches[b]]) == batches[b] by {
      assert [batches[b]][1..] == [];
    }
  }

  /** Every review of the batches `b..` is classified at least once. */
  lemma {:induction false} FromBatchesCovers(batches: seq<seq<ReviewModel>>, b: nat, maxRetries: nat,
                                             respond: (nat, nat) -> Option<string>,
                                             parse: string -> Option<Json>)
    requires b <= |batches|
    ensures forall r | r in Flatten(batches[b..]) ::
              r.reviewId in ClassifiedIds(FromBatches(batches, b, maxRetries, respond, parse))
    decreases |batches| - b
  {
    if b < |batches| {
      FromBatchesCovers(batches, b + 1, maxRetries, respond, parse);
      BatchOutcomeCovers(batches[b], b, 0, maxRetries, respond, parse);
      FlattenStep(batches, b);
      var here := BatchOutcome(batches[b], b, 0, maxRetries, respond, parse);
      var rest := FromBatches(batches, b + 1, maxRetries, respond, parse);
      forall r: ReviewModel | r in Flatten(batches[b..]) ensures r.reviewId in ClassifiedIds(here + rest) {
        if r in batches[b] {
          var k :| 0 <= k < |batches[b]| && batches[b][k] == r;
          var j :| 0 <= j < |here| && here[j].reviewId == r.reviewId;
          assert (here + rest)[j] == here[j];
        } else {
          var j :| 0 <= j < |rest| && rest[j].reviewId == r.reviewId;
          assert (here + rest)[|here| + j] == rest[j];
        }
      }
    } else {
      assert batches[b..] == [];
    }
  }

  /** `classify_reviews` classifies every review at least once, only
      reviews it was given, and only into table themes; an empty input
      gives no classification. */
  lemma ClassifiedCovers(reviews: seq<ReviewModel>, config: ThemeClassifierConfig,
                         respond: (nat, nat) -> Option<string>, parse: string -> Option<Json>)
    requires config.batchSize > 0 && config.maxRetries >= 0
    ensures reviews == [] ==> Classified(reviews, config, respond, parse) == Ok([])
    ensures Classified(reviews, config, respond, parse).Ok?
    ensures forall c | c in Classified(reviews, config, respond, parse).value ::
              c.reviewId in BatchIds(reviews) && c.themeId in GetAllThemeIds()
    ensures forall k | 0 <= k < |reviews| ::
              reviews[k].reviewId in ClassifiedIds(Classified(reviews, config, respond, parse).value)
  {
    if reviews != [] {
      var batches := Chunks(reviews, config.batchSize);
      ChunksFlatten(reviews, config.batchSize);
      assert batches[0..] == batches;
      FromBatchesFacts(batches, 0, config.maxRetries, respond, parse);
      FromBatchesCovers(batches, 0, config.maxRetries, respond, parse);
    }
  }
}
