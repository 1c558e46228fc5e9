/** The records of the summarization stage (src/layer3/models.py). Dates
    are day-and-time values reduced to seconds; the prompt text does not
    read them. */
module Layer3Models {
  import opened Common
  import opened JsonValue

  datatype ClassifiedReview = ClassifiedReview(reviewId: string, title: string, text: string, rating: int,
                                               date: int, themeId: string, themeName: string)

  datatype ThemeChunk = ThemeChunk(themeId: string, themeName: string, reviews: seq<ClassifiedReview>)

  datatype ChunkSummary = ChunkSummary(themeId: string, themeName: string,
                                       keyPoints: seq<string>, candidateQuotes: seq<string>)

  datatype ThemeInsight = ThemeInsight(themeId: string, themeName: string,
                                       keyPoints: seq<string>, quotes: seq<string>)

  /** An entry of a note's theme list: the two keys the pipeline reads,
      `None` where the key is absent. */
  datatype ThemeEntry = ThemeEntry(name: Option<string>, summary: Option<string>)

  datatype WeeklyPulseNote = WeeklyPulseNote(weekStart: string, weekEnd: string, title: string, overview: string,
                                             themes: seq<ThemeEntry>, quotes: seq<string>,
                                             actions: seq<string>, wordCount: nat)

  /** The keys of the dictionaries the summaries and insights are stored
      as. */
  const ThemeIdKey := "theme_id"
  const ThemeNameKey := "theme_name"
  const KeyPointsKey := "key_points"
  const CandidateQuotesKey := "candidate_quotes"
  const QuotesKey := "quotes"

  /** The summary of a theme, empty when it has none. */
  function SummaryText(theme: ThemeEntry): string
  {
    if theme.summary.Some? then theme.summary.value else ""
  }

  /** `ThemeInsight(theme_id=..., theme_name=...)`: the lists start empty. */
  function NewInsight(themeId: string, themeName: string): ThemeInsight
  {
    ThemeInsight(themeId, themeName, [], [])
  }

  const TitleLabel := "Title: "
  const RatingLabel := "Rating: "
  const ReviewLabel := "Review: "

  /** `ClassifiedReview.to_prompt_text` */
  function ToPromptText(r: ClassifiedReview): string
  {
    PromptHead(r) + ReviewLabel + Strip(r.text)
  }

  function TitleLine(r: ClassifiedReview): string
  {
    TitleLabel + r.title + "\n"
  }

  function RatingLine(r: ClassifiedReview): string
  {
    RatingLabel + IntToString(r.rating) + "\n"
  }

  /** The title line, when there is a title, and the rating line. */
  function PromptHead(r: ClassifiedReview): string
  {
    (if r.title != [] then TitleLine(r) else "") + RatingLine(r)
  }

  /** The prompt text opens with a title line exactly when the review has a
      title. */
  lemma ToPromptTextTitle(r: ClassifiedReview)
    ensures r.title != [] <==> StartsWith(ToPromptText(r), TitleLabel)
    ensures r.title != [] ==> StartsWith(ToPromptText(r), TitleLine(r))
  {
    if r.title == [] {
      UntitledPrompt(r);
    } else {
      TitledPrompt(r);
    }
  }

  lemma UntitledPrompt(r: ClassifiedReview)
    requires r.title == []
    ensures !StartsWith(ToPromptText(r), TitleLabel)
  {
    assert ToPromptText(r) == RatingLine(r) + (ReviewLabel + Strip(r.text));
    assert ToPromptText(r)[0] == RatingLabel[0] == 'R';
    assert TitleLabel[0] == 'T';
  }

  lemma TitledPrompt(r: ClassifiedReview)
    requires r.title != []
    ensures StartsWith(ToPromptText(r), TitleLine(r))
    ensures StartsWith(ToPromptText(r), TitleLabel)
  {
    assert ToPromptText(r) == TitleLine(r) + (RatingLine(r) + ReviewLabel + Strip(r.text));
    assert TitleLabel <= TitleLine(r);
  }

  /** The prompt text always holds the rating line. */
  lemma ToPromptTextRating(r: ClassifiedReview)
    ensures Contains(ToPromptText(r), RatingLine(r))
  {
    var titlePart := if r.title != [] then TitleLine(r) else "";
    ContainsInfix4(titlePart, RatingLine(r), ReviewLabel, Strip(r.text));
  }

  /** The prompt text ends with the stripped review text. */
  lemma ToPromptTextEnd(r: ClassifiedReview)
    ensures EndsWith(ToPromptText(r), ReviewLabel + Strip(r.text))
  {
    EndsWithConcat3(PromptHead(r), ReviewLabel, Strip(r.text));
  }

  /** The strings of a list of JSON strings, or `None` when an item is not
      a string. */
  function StringsOf(items: seq<Json>): (r: Option<seq<string>>)
    ensures r.Some? ==> |r.value| == |items| && forall i | 0 <= i < |items| :: items[i] == JString(r.value[i])
    ensures r.None? ==> exists i | 0 <= i < |items| :: !items[i].JString?
    decreases |items|
  {
    if items == [] then Some([])
    else if !items[|items| - 1].JString? then None
    else
      match StringsOf(items[..|items| - 1])
      case None => None
      case Some(init) => Some(init + [items[|items| - 1].s])
  }

  /** A decoded value that is a list of strings, as those strings. */
  function StringList(j: Json): Option<seq<string>>
  {
    if j.JArray? then StringsOf(j.items) else None
  }

  lemma StringsOfJsonStrings(xs: seq<string>)
    ensures StringsOf(JsonStrings(xs)) == Some(xs)
  {
    var r := StringsOf(JsonStrings(xs));
    assert r.Some?;
    assert r.value == xs;
  }

  /** `ThemeInsight.as_dict` */
  function InsightDict(i: ThemeInsight): Json
  {
    JObject(map[ThemeIdKey := JString(i.themeId), ThemeNameKey := JString(i.themeName),
                KeyPointsKey := JArray(JsonStrings(i.keyPoints)), QuotesKey := JArray(JsonStrings(i.quotes))],
            [ThemeIdKey, ThemeNameKey, KeyPointsKey, QuotesKey])
  }

  /** Reading a theme insight back from its dictionary. */
  function InsightFromDict(j: Json): Option<ThemeInsight>
  {
    if j.JObject? && ThemeIdKey in j.fields && ThemeNameKey in j.fields && KeyPointsKey in j.fields
       && QuotesKey in j.fields && j.fields[ThemeIdKey].JString? && j.fields[ThemeNameKey].JString?
       && j.fields[KeyPointsKey].JArray? && j.fields[QuotesKey].JArray?
    then
      match (StringsOf(j.fields[KeyPointsKey].items), StringsOf(j.fields[QuotesKey].items))
      case (Some(points), Some(quotes)) =>
        Some(ThemeInsight(j.fields[ThemeIdKey].s, j.fields[ThemeNameKey].s, points, quotes))
      case _ => None
    else None
  }

  /** The dictionary has exactly the four field keys and gives the insight
      back. */
  lemma InsightDictFacts(i: ThemeInsight)
    ensures InsightDict(i).fields.Keys == {ThemeIdKey, ThemeNameKey, KeyPointsKey, QuotesKey}
    ensures InsightFromDict(InsightDict(i)) == Some(i)
  {
    StringsOfJsonStrings(i.keyPoints);
    StringsOfJsonStrings(i.quotes);
  }
}
