/** The reduce stage (src/layer3/weekly_reducer.py): counting the words of
    a note, reading the model's answer as a JSON object, and building the
    weekly note, compressed once when it is over the word limit. The model
    call, `json.loads` and `json.dumps` are parameters. */
module WeeklyReducer {
  import opened Common
  import opened JsonValue
  import opened Layer3Models

  // ---------------------------------------------------------------------
  // Splitting into words

  /** The leading elements of `s` that are not separators. */
  function Run<T>(s: seq<T>, sep: T -> bool): (r: seq<T>)
    ensures r <= s
    ensures forall i | 0 <= i < |r| :: !sep(r[i])
    ensures |r| < |s| ==> sep(s[|r|])
    decreases |s|
  {
    if s == [] || sep(s[0]) then [] else [s[0]] + Run(s[1..], sep)
  }

  /** The maximal runs of non-separators of `s`, in order. */
  function Runs<T>(s: seq<T>, sep: T -> bool): seq<seq<T>>
    decreases |s|
  {
    if s == [] then []
    else if sep(s[0]) then Runs(s[1..], sep)
    else
      var w := Run(s, sep);
      [w] + Runs(s[|w|..], sep)
  }

  /** Every part is non-empty and free of separators. */
  ghost predicate Separated<T>(parts: seq<seq<T>>, sep: T -> bool)
  {
    forall k | 0 <= k < |parts| :: parts[k] != [] && forall i | 0 <= i < |parts[k]| :: !sep(parts[k][i])
  }

  ghost predicate AllSeparators<T>(s: seq<T>, sep: T -> bool)
  {
    forall i | 0 <= i < |s| :: sep(s[i])
  }

  /** The runs are non-empty and hold no separator. */
  lemma {:induction false} RunsSeparated<T>(s: seq<T>, sep: T -> bool)
    ensures Separated(Runs(s, sep), sep)
    decreases |s|
  {
    if s != [] {
      if sep(s[0]) {
        RunsSeparated(s[1..], sep);
      } else {
        var w := Run(s, sep);
        RunsSeparated(s[|w|..], sep);
        var r := Runs(s, sep);
        assert r == [w] + Runs(s[|w|..], sep);
        assert w[0] == s[0];
        forall k | 0 <= k < |r| ensures r[k] != [] && forall i | 0 <= i < |r[k]| :: !sep(r[k][i]) {
          if k > 0 {
            assert r[k] == Runs(s[|w|..], sep)[k - 1];
          }
        }
      }
    }
  }

  /** Leading separators do not matter. */
  lemma {:induction false} RunsAfterSeparators<T>(a: seq<T>, t: seq<T>, sep: T -> bool)
    requires AllSeparators(a, sep)
    ensures Runs(a + t, sep) == Runs(t, sep)
    decreases |a|
  {
    if a != [] {
      assert (a + t)[0] == a[0];
      assert (a + t)[1..] == a[1..] + t;
      RunsAfterSeparators(a[1..], t, sep);
    } else {
      assert a + t == t;
    }
  }

  /** A run ends at a separator at the latest. */
  lemma {:induction false} RunBeforeSeparator<T>(a: seq<T>, x: T, b: seq<T>, sep: T -> bool)
    requires sep(x)
    ensures Run(a + [x] + b, sep) == Run(a, sep)
    decreases |a|
  {
    var s := a + [x] + b;
    if a == [] {
      assert s[0] == x;
    } else {
      assert s[0] == a[0];
      if !sep(a[0]) {
        assert s[1..] == a[1..] + [x] + b;
        RunBeforeSeparator(a[1..], x, b, sep);
      }
    }
  }

  /** A separator splits the runs in two. */
  lemma {:induction false} RunsSplit<T>(a: seq<T>, x: T, b: seq<T>, sep: T -> bool)
    requires sep(x)
    ensures Runs(a + [x] + b, sep) == Runs(a, sep) + Runs(b, sep)
    decreases |a|
  {
    var s := a + [x] + b;
    if a == [] {
      assert s[0] == x && s[1..] == b;
    } else if sep(a[0]) {
      assert s[0] == a[0];
      assert s[1..] == a[1..] + [x] + b;
      RunsSplit(a[1..], x, b, sep);
    } else {
      assert s[0] == a[0];
      RunBeforeSeparator(a, x, b, sep);
      var w := Run(a, sep);
      assert s[|w|..] == a[|w|..] + [x] + b;
      RunsSplit(a[|w|..], x, b, sep);
    }
  }

  /** Trailing separators do not matter. */
  lemma RunsBeforeSeparators<T>(t: seq<T>, b: seq<T>, sep: T -> bool)
    requires AllSeparators(b, sep)
    ensures Runs(t + b, sep) == Runs(t, sep)
  {
    if b != [] {
      assert t + b == t + [b[0]] + b[1..];
      RunsSplit(t, b[0], b[1..], sep);
      RunsAfterSeparators(b[1..], [], sep);
      assert b[1..] + [] == b[1..];
    } else {
      assert t + b == t;
    }
  }

  /** A non-empty part without separators is one run. */
  lemma RunsOfPart<T>(w: seq<T>, sep: T -> bool)
    requires w != [] && forall i | 0 <= i < |w| :: !sep(w[i])
    ensures Runs(w, sep) == [w]
  {
    assert Run(w, sep) == w;
    assert w[|w|..] == [];
  }

  /** Splitting undoes joining with one separator, for non-empty parts
      without separators. */
  lemma {:induction false} RunsJoin<T>(parts: seq<seq<T>>, x: T, sep: T -> bool)
    requires sep(x) && Separated(parts, sep)
    ensures Runs(Join([x], parts), sep) == parts
    decreases |parts|
  {
    if parts == [] {
    } else if |parts| == 1 {
      RunsOfPart(parts[0], sep);
    } else {
      RunsOfPart(parts[0], sep);
      RunsJoin(parts[1..], x, sep);
      assert Join([x], parts) == parts[0] + [x] + Join([x], parts[1..]);
      RunsSplit(parts[0], x, Join([x], parts[1..]), sep);
      assert [parts[0]] + parts[1..] == parts;
    }
  }

  /** `s.split()`: the maximal runs of non-whitespace characters. */
  function Words(s: string): seq<string>
  {
    Runs(s, IsSpace)
  }

  /** `text.strip().split()` splits as `text.split()` does. */
  lemma WordsOfStripped(s: string)
    ensures Words(Strip(s)) == Words(s)
  {
    WordsOfStripLeft(s);
    WordsOfStripRight(StripLeft(s));
  }

  lemma WordsOfStripLeft(s: string)
    ensures Words(StripLeft(s)) == Words(s)
  {
    var l := StripLeft(s);
    var a := s[..|s| - |l|];
    SplitAt(s, |s| - |l|);
    assert AllSeparators(a, IsSpace) by {
      forall i | 0 <= i < |a| ensures IsSpace(a[i]) {
        assert a[i] == s[i];
      }
    }
    RunsAfterSeparators(a, l, IsSpace);
  }

  lemma WordsOfStripRight(s: string)
    ensures Words(StripRight(s)) == Words(s)
  {
    var t := StripRight(s);
    var b := s[|t|..];
    SplitAt(s, |t|);
    assert AllSeparators(b, IsSpace) by {
      forall i | 0 <= i < |b| ensures IsSpace(b[i]) {
        assert b[i] == s[|t| + i];
      }
    }
    RunsBeforeSeparators(t, b, IsSpace);
  }

  lemma SplitAt<T>(s: seq<T>, k: nat)
    requires k <= |s|
    ensures s == s[..k] + s[k..]
  {
  }

  /** The words of a text are non-empty and hold no whitespace, and the
      words of `" ".join(words)` are `words` again. */
  lemma WordsFacts(s: string, ws: seq<string>)
    requires Separated(ws, IsSpace)
    ensures Separated(Words(s), IsSpace)
    ensures Words(Join(" ", ws)) == ws
  {
    RunsSeparated(s, IsSpace);
    RunsJoin(ws, ' ', IsSpace);
  }

  // ---------------------------------------------------------------------
  // calculate_word_count

  /** One character as the string iterating a string yields. */
  function CharStrings(s: string): (r: seq<Json>)
    ensures |r| == |s| && forall i | 0 <= i < |s| :: r[i] == JString([s[i]])
  {
    seq(|s|, i requires 0 <= i < |s| => JString([s[i]]))
  }

  /** What iterating a decoded value yields: a list its items, a string its
      one-character strings, a dictionary its keys in insertion order;
      anything else is not iterable. */
  function Iterated(j: Json): Result<seq<Json>>
  {
    match j
    case JArray(items) => Ok(items)
    case JString(s) => Ok(CharStrings(s))
    case JObject(_, keys) => Ok(JsonStrings(keys))
    case _ => Err("TypeError")
  }

  /** `theme.get("summary", "")` */
  function SummaryField(theme: Json): Json
    requires theme.JObject?
  {
    Get(theme.fields, "summary", JString(""))
  }

  predicate AllObjects(items: seq<Json>)
  {
    forall i | 0 <= i < |items| :: items[i].JObject?
  }

  /** The summaries of themes that are all dictionaries, in order. */
  function SummaryFields(themes: seq<Json>): (r: seq<Json>)
    requires AllObjects(themes)
    ensures |r| == |themes| && forall i | 0 <= i < |themes| :: r[i] == SummaryField(themes[i])
    decreases |themes|
  {
    if themes == [] then [] else SummaryFields(themes[..|themes| - 1]) + [SummaryField(themes[|themes| - 1])]
  }

  /** The summaries the loop over `note_dict.get("themes", [])` appends:
      every theme must have `get`, which a string or a key of a
      dictionary does not. */
  function ThemeSummaries(themes: Json): Result<seq<Json>>
  {
    match Iterated(themes)
    case Err(e) => Err(e)
    case Ok(items) => if AllObjects(items) then Ok(SummaryFields(items)) else Err("AttributeError")
  }

  /** The sections `calculate_word_count` collects, in order: the overview,
      the theme summaries, the quotes and the actions; a missing key
      contributes nothing but the empty overview. */
  function Sections(note: map<string, Json>): Result<seq<Json>>
  {
    match ThemeSummaries(Get(note, "themes", JArray([])))
    case Err(e) => Err(e)
    case Ok(summaries) =>
      match Iterated(Get(note, "quotes", JArray([])))
      case Err(e) => Err(e)
      case Ok(quotes) =>
        match Iterated(Get(note, "actions", JArray([])))
        case Err(e) => Err(e)
        case Ok(actions) => Ok([Get(note, "overview", JString(""))] + summaries + quotes + actions)
  }

  predicate AllStrings(items: seq<Json>)
  {
    forall i | 0 <= i < |items| :: items[i].JString?
  }

  /** The texts of sections that are all strings. */
  function TextsOf(sections: seq<Json>): (r: seq<string>)
    requires AllStrings(sections)
    ensures |r| == |sections| && forall i | 0 <= i < |sections| :: r[i] == sections[i].s
    decreases |sections|
  {
    if sections == [] then [] else TextsOf(sections[..|sections| - 1]) + [sections[|sections| - 1].s]
  }

  /** `f` applied to every item, the results concatenated. */
  function FlatMap<T, U>(xs: seq<T>, f: T -> seq<U>): seq<U>
    decreases |xs|
  {
    if xs == [] then [] else FlatMap(xs[..|xs| - 1], f) + f(xs[|xs| - 1])
  }

  lemma {:induction false} FlatMapConcat<T, U>(a: seq<T>, b: seq<T>, f: T -> seq<U>)
    ensures FlatMap(a + b, f) == FlatMap(a, f) + FlatMap(b, f)
    decreases |b|
  {
    if b == [] {
      assert a + b == a;
    } else {
      var init := b[..|b| - 1];
      assert (a + b)[..|a + b| - 1] == a + init;
      assert (a + b)[|a + b| - 1] == b[|b| - 1];
      FlatMapConcat(a, init, f);
    }
  }

  lemma FlatMapSingle<T, U>(x: T, f: T -> seq<U>)
    ensures FlatMap([x], f) == f(x)
  {
    assert [x][..0] == [];
  }

  /** `text.strip().split()` */
  function StrippedWords(text: string): seq<string>
  {
    Words(Strip(text))
  }

  /** Every word of every text, in order. */
  function AllWords(texts: seq<string>): seq<string>
  {
    FlatMap(texts, StrippedWords)
  }

  /** The number of words of the sections; only a string can be
      stripped. */
  function SectionWordCount(sections: seq<Json>): Result<nat>
  {
    if AllStrings(sections) then Ok(|AllWords(TextsOf(sections))|) else Err("AttributeError")
  }

  /** `calculate_word_count` */
  function WordCount(note: map<string, Json>): Result<nat>
  {
    match Sections(note)
    case Err(e) => Err(e)
    case Ok(sections) => SectionWordCount(sections)
  }

  /** One more section adds its words. */
  lemma WordsStep(sections: seq<Json>, j: nat)
    requires j < |sections| && AllStrings(sections[..j]) && sections[j].JString?
    ensures AllStrings(sections[..j + 1])
    ensures AllWords(TextsOf(sections[..j + 1])) == AllWords(TextsOf(sections[..j])) + StrippedWords(sections[j].s)
  {
    var next := sections[..j + 1];
    assert next[..j] == sections[..j];
    assert next[j] == sections[j];
    var texts := TextsOf(next);
    assert texts == TextsOf(sections[..j]) + [sections[j].s];
    assert texts[..j] == TextsOf(sections[..j]);
  }

  /** `calculate_word_count`: the sections first, then their words. */
  method CalculateWordCount(note: map<string, Json>) returns (r: Result<nat>)
    ensures r == WordCount(note)
  {
    var sections := CollectSections(note);
    if sections.Err? {
      return Err(sections.reason);
    }
    r := CountSectionWords(sections.value);
  }

  /** The first half of `calculate_word_count`: appending the overview and
      each theme's summary, then extending by the quotes and the actions. */
  method CollectSections(note: map<string, Json>) returns (r: Result<seq<Json>>)
    ensures r == Sections(note)
  {
    var sections := [Get(note, "overview", JString(""))];
    var themesValue := Get(note, "themes", JArray([]));
    var themes := Iterated(themesValue);
    if themes.Err? {
      return Err(themes.reason);
    }
    var i := 0;
    while i < |themes.value|
      invariant 0 <= i <= |themes.value|
      invariant AllObjects(themes.value[..i])
      invariant sections == [Get(note, "overview", JString(""))] + SummaryFields(themes.value[..i])
    {
      var theme := themes.value[i];
      if !theme.JObject? {
        return Err("AttributeError");
      }
      assert themes.value[..i + 1][..i] == themes.value[..i];
      sections := sections + [Get(theme.fields, "summary", JString(""))];
      i := i + 1;
    }
    assert themes.value[..i] == themes.value;
    var quotes := Iterated(Get(note, "quotes", JArray([])));
    if quotes.Err? {
      return Err(quotes.reason);
    }
    var actions := Iterated(Get(note, "actions", JArray([])));
    if actions.Err? {
      return Err(actions.reason);
    }
    r := Ok(sections + quotes.value + actions.value);
  }

  /** The second half of `calculate_word_count`: extending the word list
      by the words of each stripped section. */
  method CountSectionWords(sections: seq<Json>) returns (r: Result<nat>)
    ensures r == SectionWordCount(sections)
  {
    var words: seq<string> := [];
    var j := 0;
    while j < |sections|
      invariant 0 <= j <= |sections|
      invariant AllStrings(sections[..j])
      invariant words == AllWords(TextsOf(sections[..j]))
    {
      if !sections[j].JString? {
        return Err("AttributeError");
      }
      WordsStep(sections, j);
      words := words + StrippedWords(sections[j].s);
      j := j + 1;
    }
    assert sections[..j] == sections;
    return Ok(|words|);
  }

  /** A theme as the prompt asks for it. */
  function ThemeDict(theme: (string, string)): Json
  {
    JObject(map["name" := JString(theme.0), "summary" := JString(theme.1)], ["name", "summary"])
  }

  function ThemeDicts(themes: seq<(string, string)>): (r: seq<Json>)
    ensures |r| == |themes| && forall i | 0 <= i < |themes| :: r[i] == ThemeDict(themes[i])
  {
    seq(|themes|, i requires 0 <= i < |themes| => ThemeDict(themes[i]))
  }

  function SummaryTexts(themes: seq<(string, string)>): (r: seq<string>)
    ensures |r| == |themes| && forall i | 0 <= i < |themes| :: r[i] == themes[i].1
  {
    seq(|themes|, i requires 0 <= i < |themes| => themes[i].1)
  }

  /** A note dictionary of the requested shape. */
  function NoteDict(title: string, overview: string, themes: seq<(string, string)>, quotes: seq<string>,
                    actions: seq<string>): map<string, Json>
  {
    map["title" := JString(title), "overview" := JString(overview), "themes" := JArray(ThemeDicts(themes)),
        "quotes" := JArray(JsonStrings(quotes)), "actions" := JArray(JsonStrings(actions))]
  }

  /** The sections a note of the requested shape should give. */
  function NoteSectionList(overview: string, summaries: seq<string>, quotes: seq<string>, actions: seq<string>)
    : seq<Json>
  {
    [JString(overview)] + JsonStrings(summaries) + JsonStrings(quotes) + JsonStrings(actions)
  }

  /** The sections of a note of the requested shape are its overview, its
      theme summaries, its quotes and its actions; the title and the theme
      names are not among them. */
  lemma NoteSections(title: string, overview: string, themes: seq<(string, string)>, quotes: seq<string>,
                     actions: seq<string>)
    ensures Sections(NoteDict(title, overview, themes, quotes, actions))
            == Ok(NoteSectionList(overview, SummaryTexts(themes), quotes, actions))
  {
    var note := NoteDict(title, overview, themes, quotes, actions);
    var items := ThemeDicts(themes);
    assert Get(note, "themes", JArray([])) == JArray(items);
    assert AllObjects(items);
    assert SummaryFields(items) == JsonStrings(SummaryTexts(themes));
  }

  lemma TextsOfStrings(xs: seq<string>)
    ensures AllStrings(JsonStrings(xs)) && TextsOf(JsonStrings(xs)) == xs
  {
  }

  lemma TextsOfConcat(a: seq<Json>, b: seq<Json>)
    requires AllStrings(a) && AllStrings(b)
    ensures AllStrings(a + b) && TextsOf(a + b) == TextsOf(a) + TextsOf(b)
  {
    assert forall i | 0 <= i < |a + b| :: (a + b)[i] == if i < |a| then a[i] else b[i - |a|];
  }

  /** The words of a single text. */
  lemma AllWordsSingle(text: string)
    ensures AllWords([text]) == Words(text)
  {
    FlatMapSingle(text, StrippedWords);
    WordsOfStripped(text);
  }

  /** The word count of the sections of a note of the requested shape
      (`NoteSections`) is the total of the words of the overview, of each
      theme summary, of the quotes and of the actions. */
  lemma WordCountOfSections(overview: string, summaries: seq<string>, quotes: seq<string>, actions: seq<string>)
    ensures SectionWordCount(NoteSectionList(overview, summaries, quotes, actions))
            == Ok(|StrippedWords(overview)| + |AllWords(summaries)| + |AllWords(quotes)| + |AllWords(actions)|)
  {
    var n := |AllWords([overview] + summaries + quotes + actions)|;
    assert SectionWordCount(NoteSectionList(overview, summaries, quotes, actions)) == Ok(n) by {
      SectionTextsCount(overview, summaries, quotes, actions);
    }
    assert n == |StrippedWords(overview)| + |AllWords(summaries)| + |AllWords(quotes)| + |AllWords(actions)| by {
      AllWordsOfParts(overview, summaries, quotes, actions);
    }
  }

  lemma SectionTextsCount(overview: string, summaries: seq<string>, quotes: seq<string>, actions: seq<string>)
    ensures SectionWordCount(NoteSectionList(overview, summaries, quotes, actions))
            == Ok(|AllWords([overview] + summaries + quotes + actions)|)
  {
    NoteTexts(overview, summaries, quotes, actions);
  }

  lemma AllWordsOfParts(overview: string, summaries: seq<string>, quotes: seq<string>, actions: seq<string>)
    ensures |AllWords([overview] + summaries + quotes + actions)|
            == |StrippedWords(overview)| + |AllWords(summaries)| + |AllWords(quotes)| + |AllWords(actions)|
  {
    FlatMapParts(overview, summaries, quotes, actions, StrippedWords);
  }

  lemma FlatMapParts<T, U>(x: T, b: seq<T>, c: seq<T>, d: seq<T>, f: T -> seq<U>)
    ensures |FlatMap([x] + b + c + d, f)| == |f(x)| + |FlatMap(b, f)| + |FlatMap(c, f)| + |FlatMap(d, f)|
  {
    FlatMapConcat([x] + b + c, d, f);
    FlatMapConcat([x] + b, c, f);
    FlatMapConcat([x], b, f);
    FlatMapSingle(x, f);
  }

  lemma NoteTexts(overview: string, sums: seq<string>, quotes: seq<string>, actions: seq<string>)
    ensures AllStrings(NoteSectionList(overview, sums, quotes, actions))
    ensures TextsOf(NoteSectionList(overview, sums, quotes, actions)) == [overview] + sums + quotes + actions
  {
    TextsOfStrings([overview]);
    TextsOfStrings(sums);
    TextsOfStrings(quotes);
    TextsOfStrings(actions);
    assert JsonStrings([overview]) == [JString(overview)];
    TextsOfConcat([JString(overview)], JsonStrings(sums));
    TextsOfConcat([JString(overview)] + JsonStrings(sums), JsonStrings(quotes));
    TextsOfConcat([JString(overview)] + JsonStrings(sums) + JsonStrings(quotes), JsonStrings(actions));
  }

  /** Missing sections contribute no words: a note with only an overview
      counts the overview's words. */
  lemma WordCountOnlyOverview(overview: string)
    ensures WordCount(map["overview" := JString(overview)]) == Ok(|Words(overview)|)
  {
    var note := map["overview" := JString(overview)];
    EmptySections(note);
    TextsOfStrings([overview]);
    assert JsonStrings([overview]) == [JString(overview)];
    AllWordsSingle(overview);
  }

  /** Without themes, quotes and actions the overview is the only
      section. */
  lemma EmptySections(note: map<string, Json>)
    requires "themes" !in note && "quotes" !in note && "actions" !in note
    ensures Sections(note) == Ok([Get(note, "overview", JString(""))])
  {
    assert ThemeSummaries(JArray([])) == Ok([]);
    assert Iterated(JArray([])) == Ok([]);
    var o := [Get(note, "overview", JString(""))];
    assert o + [] + [] + [] == o;
  }

  /** A dictionary among the sections is iterated by its keys: a note
      whose only entry is a dictionary of quotes counts the words of those
      keys. */
  lemma DictQuotesWords(fields: map<string, Json>, keys: seq<string>)
    ensures WordCount(map["quotes" := JObject(fields, keys)]) == Ok(|AllWords(keys)|)
  {
    DictQuotesSections(fields, keys);
    WordCountOfSections("", [], keys, []);
    AllWordsSingle("");
    FlatMapSingle("", StrippedWords);
  }

  /** A note holding only quotes, as a dictionary, has the empty overview
      and the quotes' keys as its sections. */
  lemma DictQuotesSections(fields: map<string, Json>, keys: seq<string>)
    ensures Sections(map["quotes" := JObject(fields, keys)]) == Ok(NoteSectionList("", [], keys, []))
  {
    var note := map["quotes" := JObject(fields, keys)];
    assert JsonStrings([]) == [];
    assert ThemeSummaries(Get(note, "themes", JArray([]))) == Ok(JsonStrings([]));
    assert Iterated(Get(note, "actions", JArray([]))) == Ok(JsonStrings([]));
    SectionsOf(note, "", [], keys, []);
  }

  /** An empty note has no words. */
  lemma WordCountEmptyNote()
    ensures WordCount(map[]) == Ok(0)
  {
    EmptySections(map[]);
    TextsOfStrings([""]);
    assert JsonStrings([""]) == [JString("")];
    AllWordsSingle("");
  }

  // ---------------------------------------------------------------------
  // _try_parse_json

  /** The line boundaries of `str.splitlines` ("\r\n" counts as one). */
  predicate IsLineBreak(c: char)
  {
    c == '\n' || c == '\r' || c == '\U{0B}' || c == '\U{0C}' || c == '\U{1C}' || c == '\U{1D}' || c == '\U{1E}'
    || c == '\U{85}' || c == '\U{2028}' || c == '\U{2029}'
  }

  /** The first position where `p` holds, or `|s|`. */
  function FirstWhere<T>(s: seq<T>, p: T -> bool): (r: nat)
    ensures r <= |s| && (r < |s| ==> p(s[r])) && forall i | 0 <= i < r :: !p(s[i])
    decreases |s|
  {
    if s == [] then 0 else if p(s[0]) then 0 else 1 + FirstWhere(s[1..], p)
  }

  lemma {:induction false} FirstWhereAt<T>(s: seq<T>, p: T -> bool, k: nat)
    requires k <= |s| && (k < |s| ==> p(s[k])) && forall i | 0 <= i < k :: !p(s[i])
    ensures FirstWhere(s, p) == k
    decreases |s|
  {
    if s != [] && k > 0 {
      FirstWhereAt(s[1..], p, k - 1);
    }
  }

  /** The lines of `s`, without their line ends, as `splitlines` gives
      them: a boundary `cr` directly followed by `lf` is one line end, and a
      final line end opens no empty line. */
  function LinesOf<T(==)>(s: seq<T>, brk: T -> bool, cr: T, lf: T): seq<seq<T>>
    decreases |s|
  {
    if s == [] then []
    else
      var i := FirstWhere(s, brk);
      if i == |s| then [s]
      else
        var next := if s[i] == cr && i + 1 < |s| && s[i + 1] == lf then i + 2 else i + 1;
        [s[..i]] + LinesOf(s[next..], brk, cr, lf)
  }

  /** `s.splitlines()` */
  function SplitLines(s: string): seq<string>
  {
    LinesOf(s, IsLineBreak, '\r', '\n')
  }

  ghost predicate NoBreaks<T>(line: seq<T>, brk: T -> bool)
  {
    forall i | 0 <= i < |line| :: !brk(line[i])
  }

  /** A line without breaks, a line feed and more text: the line comes
      first. */
  lemma LinesOfStep<T>(head: seq<T>, rest: seq<T>, brk: T -> bool, cr: T, lf: T)
    requires brk(lf) && lf != cr && rest != [] && NoBreaks(head, brk)
    ensures LinesOf(head + [lf] + rest, brk, cr, lf) == [head] + LinesOf(rest, brk, cr, lf)
  {
    var s := head + [lf] + rest;
    assert forall i | 0 <= i < |head| :: s[i] == head[i];
    assert s[|head|] == lf;
    FirstWhereAt(s, brk, |head|);
    assert s[..|head|] == head;
    assert s[|head| + 1..] == rest;
  }

  /** Splitting lines undoes joining them with a line feed, for lines
      without line breaks whose last one is not empty. */
  lemma {:induction false} LinesOfJoin<T>(parts: seq<seq<T>>, brk: T -> bool, cr: T, lf: T)
    requires brk(lf) && lf != cr
    requires forall k | 0 <= k < |parts| :: NoBreaks(parts[k], brk)
    requires parts != [] && parts[|parts| - 1] != []
    ensures LinesOf(Join([lf], parts), brk, cr, lf) == parts
    decreases |parts|
  {
    if |parts| == 1 {
      FirstWhereAt(parts[0], brk, |parts[0]|);
    } else {
      var tail := parts[1..];
      var rest := Join([lf], tail);
      assert forall k | 0 <= k < |tail| :: NoBreaks(tail[k], brk) by {
        assert forall k | 0 <= k < |tail| :: tail[k] == parts[k + 1];
      }
      assert tail[|tail| - 1] == parts[|parts| - 1];
      LinesOfJoin(tail, brk, cr, lf);
      JoinEnds([lf], tail);
      LinesOfStep(parts[0], rest, brk, cr, lf);
      calc {
        LinesOf(Join([lf], parts), brk, cr, lf);
        { assert Join([lf], parts) == parts[0] + [lf] + rest; }
        LinesOf(parts[0] + [lf] + rest, brk, cr, lf);
        [parts[0]] + tail;
        { assert [parts[0]] + tail == parts; }
        parts;
      }
    }
  }

  /** The elements of `xs` where `p` holds, in order. */
  function Filter<T>(xs: seq<T>, p: T -> bool): (r: seq<T>)
    ensures |r| <= |xs|
    ensures forall i | 0 <= i < |r| :: p(r[i])
    decreases |xs|
  {
    if xs == [] then []
    else
      var init := Filter(xs[..|xs| - 1], p);
      if p(xs[|xs| - 1]) then init + [xs[|xs| - 1]] else init
  }

  lemma {:induction false} FilterConcat<T>(a: seq<T>, b: seq<T>, p: T -> bool)
    ensures Filter(a + b, p) == Filter(a, p) + Filter(b, p)
    decreases |b|
  {
    if b == [] {
      assert a + b == a;
    } else {
      var init := b[..|b| - 1];
      assert (a + b)[..|a + b| - 1] == a + init;
      assert (a + b)[|a + b| - 1] == b[|b| - 1];
      FilterConcat(a, init, p);
    }
  }

  lemma {:induction false} FilterAll<T>(xs: seq<T>, p: T -> bool)
    requires forall i | 0 <= i < |xs| :: p(xs[i])
    ensures Filter(xs, p) == xs
    decreases |xs|
  {
    if xs != [] {
      FilterAll(xs[..|xs| - 1], p);
    }
  }

  /** A line that is not a fence line: its stripped text does not open
      with three backticks. */
  predicate NotFence(line: string)
  {
    !StartsWith(Strip(line), "```")
  }

  /** The text between the fences: every fence line dropped, the rest
      joined and stripped. */
  function Unfenced(candidate: string): string
  {
    Strip(Join("\n", Filter(SplitLines(candidate), NotFence)))
  }

  /** Filtering out a first and a last element that fail `p` around
      elements that pass it leaves the inner ones. */
  lemma FilterInner<T>(open: T, body: seq<T>, close: T, p: T -> bool)
    requires !p(open) && !p(close) && forall k | 0 <= k < |body| :: p(body[k])
    ensures Filter([open] + body + [close], p) == body
  {
    FilterConcat([open] + body, [close], p);
    FilterConcat([open], body, p);
    FilterAll(body, p);
    assert [open][..0] == [] && [close][..0] == [];
  }

  /** The fenced lines, each of them break-free. */
  lemma FencedBreakFree<T>(open: seq<T>, body: seq<seq<T>>, close: seq<T>, brk: T -> bool)
    requires NoBreaks(open, brk) && NoBreaks(close, brk)
    requires forall k | 0 <= k < |body| :: NoBreaks(body[k], brk)
    ensures forall k | 0 <= k < |[open] + body + [close]| :: NoBreaks(([open] + body + [close])[k], brk)
  {
    var parts := [open] + body + [close];
    forall k | 0 <= k < |parts|
      ensures NoBreaks(parts[k], brk)
    {
      if 0 < k < |parts| - 1 {
        assert parts[k] == body[k - 1];
      }
    }
  }

  /** Dropping the fence lines around break-free, unfenced lines leaves
      those lines joined and stripped. */
  lemma UnfencedOf(open: string, body: seq<string>, close: string)
    requires !NotFence(open) && !NotFence(close) && close != []
    requires NoBreaks(open, IsLineBreak) && NoBreaks(close, IsLineBreak)
    requires forall k | 0 <= k < |body| :: NoBreaks(body[k], IsLineBreak) && NotFence(body[k])
    ensures Unfenced(Join("\n", [open] + body + [close])) == Strip(Join("\n", body))
  {
    var parts := [open] + body + [close];
    assert SplitLines(Join("\n", parts)) == parts by {
      FencedBreakFree(open, body, close, IsLineBreak);
      LinesOfJoin(parts, IsLineBreak, '\r', '\n');
    }
    assert Filter(parts, NotFence) == body by {
      FilterInner(open, body, close, NotFence);
    }
  }

  /** The position of the last `c` in `s`, if there is one. */
  function LastIndexOf(s: string, c: char): (r: Option<nat>)
    ensures r.Some? ==> r.value < |s| && s[r.value] == c && forall i | r.value < i < |s| :: s[i] != c
    ensures r.None? ==> c !in s
    decreases |s|
  {
    if s == [] then None
    else if s[|s| - 1] == c then Some(|s| - 1)
    else LastIndexOf(s[..|s| - 1], c)
  }

  /** A candidate that does not open with a brace is cut from its first
      `{` to its last `}`, when both exist in that order. */
  function BraceSlice(candidate: string): (r: string)
    ensures StartsWith(candidate, "{") ==> r == candidate
    ensures r != candidate ==> |r| >= 2 && r[0] == '{' && r[|r| - 1] == '}' && Contains(candidate, r)
  {
    if StartsWith(candidate, "{") then candidate
    else
      match (IndexOf(candidate, '{'), LastIndexOf(candidate, '}'))
      case (Some(start), Some(end)) =>
        if end > start then
          assert candidate == candidate[..start] + candidate[start..end + 1] + candidate[end + 1..];
          ContainsInfix(candidate[..start], candidate[start..end + 1], candidate[end + 1..]);
          candidate[start..end + 1]
        else candidate
      case _ => candidate
  }

  lemma IndexOfAt(s: string, c: char, k: nat)
    requires k < |s| && s[k] == c && forall i | 0 <= i < k :: s[i] != c
    ensures IndexOf(s, c) == Some(k)
  {
    var r := IndexOf(s, c);
    assert s[k] in s;
    assert forall j | 0 <= j < r.value :: s[..r.value][j] == s[j];
  }

  lemma LastIndexOfAt(s: string, c: char, k: nat)
    requires k < |s| && s[k] == c && forall i | k < i < |s| :: s[i] != c
    ensures LastIndexOf(s, c) == Some(k)
  {
    var r := LastIndexOf(s, c);
    assert r.Some? by {
      assert s[k] in s;
    }
  }

  /** The cut keeps exactly the braced text between a prefix without `{`
      and a suffix without `}`. */
  lemma BraceSliceOf(pre: string, body: string, post: string)
    requires pre != [] && '{' !in pre && '}' !in post
    requires |body| >= 2 && body[0] == '{' && body[|body| - 1] == '}'
    ensures BraceSlice(pre + body + post) == body
  {
    var c := pre + body + post;
    assert !StartsWith(c, "{") by {
      assert c[0] == pre[0];
    }
    assert c[|pre|] == '{';
    assert forall i | 0 <= i < |pre| :: c[i] == pre[i];
    IndexOfAt(c, '{', |pre|);
    var end := |pre| + |body| - 1;
    assert c[end] == '}';
    assert forall i | end < i < |c| :: c[i] == post[i - end - 1];
    LastIndexOfAt(c, '}', end);
    assert c[|pre|..end + 1] == body;
  }

  /** `_try_parse_json`: a blank text gives nothing; a fenced text loses its
      fence lines; a text not opening with a brace is cut to its braces;
      what `json.loads` rejects gives nothing, and so does a decoded `null`,
      which the caller cannot tell from a failure. */
  function TryParseJson(blob: string, parse: string -> Option<Json>): (r: Option<Json>)
    ensures Strip(blob) == [] ==> r.None?
    ensures r.Some? ==> r.value != JNull
  {
    if Strip(blob) == [] then None else NonNull(parse(Candidate(Strip(blob))))
  }

  /** The text handed to `json.loads` for a stripped, nonblank text. */
  function Candidate(stripped: string): string
  {
    BraceSlice(if StartsWith(stripped, "```") then Unfenced(stripped) else stripped)
  }

  /** A decoded `null` is no payload. */
  function NonNull(parsed: Option<Json>): (r: Option<Json>)
    ensures r.Some? <==> parsed.Some? && parsed.value != JNull
    ensures r.Some? ==> r == parsed
  {
    match parsed
    case None => None
    case Some(j) => if j == JNull then None else Some(j)
  }

  /** A stripped text opening with a brace is decoded as it is. */
  lemma ParsePlain(blob: string, parse: string -> Option<Json>)
    requires IsStripped(blob) && StartsWith(blob, "{")
    ensures TryParseJson(blob, parse) == NonNull(parse(blob))
  {
    StripOfStripped(blob);
  }

  /** Text around a braced object, with no brace before it and no closing
      brace after it, is cut down to the object. */
  lemma ParseEmbedded(pre: string, body: string, post: string, parse: string -> Option<Json>)
    requires IsStripped(pre + body + post) && pre != [] && pre[0] != '`'
    requires '{' !in pre && '}' !in post
    requires |body| >= 2 && body[0] == '{' && body[|body| - 1] == '}'
    ensures TryParseJson(pre + body + post, parse) == NonNull(parse(body))
  {
    var blob := pre + body + post;
    assert Strip(blob) == blob && blob != [] by {
      StripOfStripped(blob);
    }
    assert Candidate(blob) == body by {
      assert !StartsWith(blob, "```") by {
        assert blob[0] == pre[0];
      }
      BraceSliceOf(pre, body, post);
    }
  }

  /** Printable ASCII holds no line break. */
  lemma PrintableNoBreaks(line: string)
    requires forall i | 0 <= i < |line| :: '!' <= line[i] <= '~'
    ensures NoBreaks(line, IsLineBreak)
  {
  }

  /** The fence lines a model writes around a JSON reply. */
  lemma FenceLines()
    ensures !NotFence("```json") && !NotFence("```")
    ensures NoBreaks("```json", IsLineBreak) && NoBreaks("```", IsLineBreak)
  {
    OpenFenceLine();
    CloseFenceLine();
  }

  lemma OpenFenceLine()
    ensures !NotFence("```json") && NoBreaks("```json", IsLineBreak)
  {
    var open := "```json";
    assert open == ['`', '`', '`', 'j', 's', 'o', 'n'];
    assert "```" <= open;
    StripOfStripped(open);
    PrintableNoBreaks(open);
  }

  lemma CloseFenceLine()
    ensures !NotFence("```") && NoBreaks("```", IsLineBreak)
  {
    var close := "```";
    assert close == ['`', '`', '`'];
    StripOfStripped(close);
    PrintableNoBreaks(close);
  }

  /** The fenced text is stripped and opens a code fence. */
  lemma FencedStripped(body: seq<string>)
    ensures var blob := Join("\n", ["```json"] + body + ["```"]);
            Strip(blob) == blob && StartsWith(blob, "```")
  {
    var parts := ["```json"] + body + ["```"];
    var blob := Join("\n", parts);
    assert blob == "```json" + "\n" + Join("\n", parts[1..]);
    assert blob[..3] == "```";
    JoinEnds("\n", parts);
    StripOfStripped(blob);
  }

  /** Lines a code fence can hold: none breaks a line or is a fence. */
  ghost predicate FenceBody(body: seq<string>)
  {
    forall k | 0 <= k < |body| :: NoBreaks(body[k], IsLineBreak) && NotFence(body[k])
  }

  /** Dropping the fence lines of a fenced reply leaves its body. */
  lemma UnfencedFenced(body: seq<string>)
    requires FenceBody(body)
    ensures Unfenced(Join("\n", ["```json"] + body + ["```"])) == Strip(Join("\n", body))
  {
    FenceLines();
    UnfencedOf("```json", body, "```");
  }

  /** The fenced reply, once stripped, is a code fence whose inner text is
      the body. */
  lemma FencedCandidate(body: seq<string>)
    requires FenceBody(body)
    requires IsStripped(Join("\n", body)) && StartsWith(Join("\n", body), "{")
    ensures Strip(Join("\n", ["```json"] + body + ["```"])) == Join("\n", ["```json"] + body + ["```"])
    ensures Candidate(Join("\n", ["```json"] + body + ["```"])) == Join("\n", body)
  {
    var inner := Join("\n", body);
    assert Strip(inner) == inner by {
      StripOfStripped(inner);
    }
    FencedStripped(body);
    UnfencedFenced(body);
  }

  /** A reply fenced as a JSON code block is decoded from the lines
      between the fences. */
  lemma ParseFenced(body: seq<string>, parse: string -> Option<Json>)
    requires FenceBody(body)
    requires IsStripped(Join("\n", body)) && StartsWith(Join("\n", body), "{")
    ensures TryParseJson(Join("\n", ["```json"] + body + ["```"]), parse) == NonNull(parse(Join("\n", body)))
  {
    FencedCandidate(body);
  }

  // ---------------------------------------------------------------------
  // The texts of a response

  /** A model response: its `text` and, for each candidate, the texts of
      the parts of its content. An attribute that is missing or `None`
      reads as empty. */
  datatype Response = Response(text: string, candidates: seq<seq<string>>)

  /** A text, stripped, when it is not blank. */
  function NonBlank(t: string): (r: seq<string>)
    ensures r == [] <==> Strip(t) == []
    ensures r != [] ==> r == [Strip(t)]
  {
    if Strip(t) != [] then [Strip(t)] else []
  }

  function PartTexts(parts: seq<string>): seq<string>
  {
    FlatMap(parts, NonBlank)
  }

  /** `_iter_candidate_texts`: the stripped response text, then the
      stripped texts of the parts of every candidate, blank ones left out. */
  function CandidateTexts(resp: Response): seq<string>
  {
    NonBlank(resp.text) + FlatMap(resp.candidates, PartTexts)
  }

  lemma FlatMapStep<T, U>(xs: seq<T>, k: nat, f: T -> seq<U>)
    requires k < |xs|
    ensures FlatMap(xs[..k + 1], f) == FlatMap(xs[..k], f) + f(xs[k])
  {
    assert xs[..k + 1][..k] == xs[..k];
  }

  /** A loop that appends what `f` gives for each element in turn keeps
      its result a flat map of the elements seen. */
  lemma FlatMapAccumulate<T, U>(pre: seq<U>, acc: seq<U>, xs: seq<T>, k: nat, f: T -> seq<U>, next: seq<U>)
    requires k < |xs| && acc == pre + FlatMap(xs[..k], f) && next == f(xs[k])
    ensures acc + next == pre + FlatMap(xs[..k + 1], f)
  {
    FlatMapStep(xs, k, f);
  }

  /** An element of a flat map comes from one of the mapped elements. */
  lemma {:induction false} FlatMapMember<T, U>(xs: seq<T>, f: T -> seq<U>, u: U)
    requires u in FlatMap(xs, f)
    ensures exists i | 0 <= i < |xs| :: u in f(xs[i])
    decreases |xs|
  {
    var init := xs[..|xs| - 1];
    if u !in f(xs[|xs| - 1]) {
      FlatMapMember(init, f, u);
      var i :| 0 <= i < |init| && u in f(init[i]);
      assert init[i] == xs[i];
    }
  }

  /** Every element a mapped element gives is in the flat map. */
  lemma {:induction false} FlatMapHas<T, U>(xs: seq<T>, f: T -> seq<U>, i: nat, u: U)
    requires i < |xs| && u in f(xs[i])
    ensures u in FlatMap(xs, f)
    decreases |xs|
  {
    var init := xs[..|xs| - 1];
    if i < |init| {
      assert init[i] == xs[i];
      FlatMapHas(init, f, i, u);
    }
  }

  /** The part texts of one candidate, in order. */
  method CollectPartTexts(parts: seq<string>) returns (texts: seq<string>)
    ensures texts == PartTexts(parts)
  {
    texts := [];
    var p := 0;
    while p < |parts|
      invariant 0 <= p <= |parts|
      invariant texts == FlatMap(parts[..p], NonBlank)
    {
      FlatMapStep(parts, p, NonBlank);
      var partText := Strip(parts[p]);
      if partText != [] {
        texts := texts + [partText];
      }
      p := p + 1;
    }
    assert parts[..p] == parts;
  }

  /** `_iter_candidate_texts` */
  method IterCandidateTexts(resp: Response) returns (texts: seq<string>)
    ensures texts == CandidateTexts(resp)
  {
    texts := [];
    var text := Strip(resp.text);
    if text != [] {
      texts := texts + [text];
    }
    var c := 0;
    while c < |resp.candidates|
      invariant 0 <= c <= |resp.candidates|
      invariant texts == NonBlank(resp.text) + FlatMap(resp.candidates[..c], PartTexts)
    {
      var partTexts := CollectPartTexts(resp.candidates[c]);
      FlatMapAccumulate(NonBlank(resp.text), texts, resp.candidates, c, PartTexts, partTexts);
      texts := texts + partTexts;
      c := c + 1;
    }
    assert resp.candidates[..c] == resp.candidates;
  }

  /** The candidate texts are exactly the nonblank texts of the response,
      stripped: the response text first when it is not blank, and every
      nonblank part text. */
  lemma CandidateTextsFacts(resp: Response)
    ensures forall t | t in CandidateTexts(resp) :: t != [] && IsStripped(t)
    ensures forall t | t in CandidateTexts(resp) ::
              t == Strip(resp.text) ||
              exists c, p | 0 <= c < |resp.candidates| && 0 <= p < |resp.candidates[c]| :: t == Strip(resp.candidates[c][p])
    ensures Strip(resp.text) != [] ==> CandidateTexts(resp)[0] == Strip(resp.text)
    ensures forall c, p | 0 <= c < |resp.candidates| && 0 <= p < |resp.candidates[c]| && Strip(resp.candidates[c][p]) != [] ::
              Strip(resp.candidates[c][p]) in CandidateTexts(resp)
  {
    forall t | t in CandidateTexts(resp)
      ensures t != [] && IsStripped(t)
      ensures t == Strip(resp.text) ||
              exists c, p | 0 <= c < |resp.candidates| && 0 <= p < |resp.candidates[c]| :: t == Strip(resp.candidates[c][p])
    {
      CandidateTextFrom(resp, t);
    }
    forall c, p | 0 <= c < |resp.candidates| && 0 <= p < |resp.candidates[c]| && Strip(resp.candidates[c][p]) != []
      ensures Strip(resp.candidates[c][p]) in CandidateTexts(resp)
    {
      PartTextCandidate(resp, c, p);
    }
  }

  /** Where one candidate text comes from. */
  lemma CandidateTextFrom(resp: Response, t: string)
    requires t in CandidateTexts(resp)
    ensures t != [] && IsStripped(t)
    ensures t == Strip(resp.text) ||
            exists c, p | 0 <= c < |resp.candidates| && 0 <= p < |resp.candidates[c]| :: t == Strip(resp.candidates[c][p])
  {
    if t in NonBlank(resp.text) {
      NonBlankMember(resp.text, t);
    } else {
      FlatMapMember(resp.candidates, PartTexts, t);
      var c :| 0 <= c < |resp.candidates| && t in PartTexts(resp.candidates[c]);
      FlatMapMember(resp.candidates[c], NonBlank, t);
      var p :| 0 <= p < |resp.candidates[c]| && t in NonBlank(resp.candidates[c][p]);
      NonBlankMember(resp.candidates[c][p], t);
    }
  }

  lemma NonBlankMember(x: string, t: string)
    requires t in NonBlank(x)
    ensures t == Strip(x) && t != [] && IsStripped(t)
  {
    var n := NonBlank(x);
    assert n != [];
    assert n == [Strip(x)];
  }

  /** Every nonblank part text is a candidate text. */
  lemma PartTextCandidate(resp: Response, c: nat, p: nat)
    requires c < |resp.candidates| && p < |resp.candidates[c]| && Strip(resp.candidates[c][p]) != []
    ensures Strip(resp.candidates[c][p]) in CandidateTexts(resp)
  {
    var t := Strip(resp.candidates[c][p]);
    FlatMapHas(resp.candidates[c], NonBlank, p, t);
    FlatMapHas(resp.candidates, PartTexts, c, t);
  }

  // ---------------------------------------------------------------------
  // The payload of a response

  /** The first result of `f` on `xs` that is present, if any. */
  function FirstSome<T, U>(xs: seq<T>, f: T -> Option<U>): (r: Option<U>)
    ensures r.Some? ==> exists i | 0 <= i < |xs| :: f(xs[i]) == r
    decreases |xs|
  {
    if xs == [] then None
    else if f(xs[0]).Some? then f(xs[0])
    else FirstSome(xs[1..], f)
  }

  lemma {:induction false} FirstSomeIs<T, U>(xs: seq<T>, f: T -> Option<U>, k: nat)
    requires k < |xs| && f(xs[k]).Some?
    requires forall j | 0 <= j < k :: f(xs[j]).None?
    ensures FirstSome(xs, f) == f(xs[k])
    decreases k
  {
    if k > 0 {
      assert forall j | 0 <= j < k - 1 :: xs[1..][j] == xs[j + 1];
      FirstSomeIs(xs[1..], f, k - 1);
    }
  }

  lemma {:induction false} FirstSomeNone<T, U>(xs: seq<T>, f: T -> Option<U>)
    ensures FirstSome(xs, f).None? <==> forall i | 0 <= i < |xs| :: f(xs[i]).None?
    decreases |xs|
  {
    if xs != [] {
      FirstSomeNone(xs[1..], f);
      assert forall i | 1 <= i < |xs| :: xs[1..][i - 1] == xs[i];
    }
  }

  /** `_try_parse_json` with its decoder fixed. */
  function Decoder(parse: string -> Option<Json>): string -> Option<Json>
  {
    blob => TryParseJson(blob, parse)
  }

  /** `_extract_json_payload` on the candidate texts: the first value
      that decodes, if any. */
  function FirstParsed(texts: seq<string>, parse: string -> Option<Json>): (r: Option<Json>)
    ensures r.Some? ==> r.value != JNull
  {
    FirstSome(texts, Decoder(parse))
  }

  /** The first text that decodes decides the payload. */
  lemma FirstParsedIs(texts: seq<string>, parse: string -> Option<Json>, k: nat)
    requires k < |texts| && TryParseJson(texts[k], parse).Some?
    requires forall j | 0 <= j < k :: TryParseJson(texts[j], parse).None?
    ensures FirstParsed(texts, parse) == TryParseJson(texts[k], parse)
  {
    FirstSomeIs(texts, Decoder(parse), k);
  }

  /** There is no payload exactly when no text decodes. */
  lemma FirstParsedNone(texts: seq<string>, parse: string -> Option<Json>)
    ensures FirstParsed(texts, parse).None? <==> forall i | 0 <= i < |texts| :: TryParseJson(texts[i], parse).None?
  {
    FirstSomeNone(texts, Decoder(parse));
  }

  /** What the model call gives: an exception, or a response. */
  datatype ModelReply = Failed | Answered(response: Response)

  /** `_invoke_model` after the call: a call that raised, a response none
      of whose texts decodes, or a decoded value that is not a dictionary
      gives no payload. */
  function ModelPayload(reply: ModelReply, parse: string -> Option<Json>): (r: Option<map<string, Json>>)
    ensures reply.Failed? ==> r.None?
  {
    if reply.Failed? then None else ObjectFields(FirstParsed(CandidateTexts(reply.response), parse))
  }

  /** The fields of a decoded value that is a dictionary. */
  function ObjectFields(payload: Option<Json>): (r: Option<map<string, Json>>)
    ensures r.Some? <==> payload.Some? && payload.value.JObject?
    ensures r.Some? ==> payload.value.fields == r.value
  {
    if payload.Some? && payload.value.JObject? then Some(payload.value.fields) else None
  }

  /** A response whose text is a JSON object gives that object, whatever
      its candidates hold. */
  lemma PayloadOfText(resp: Response, parse: string -> Option<Json>, fields: map<string, Json>, keys: seq<string>)
    requires IsStripped(resp.text) && StartsWith(resp.text, "{")
    requires parse(resp.text) == Some(JObject(fields, keys))
    ensures ModelPayload(Answered(resp), parse) == Some(fields)
  {
    assert resp.text != [];
    StripOfStripped(resp.text);
    CandidateTextsFacts(resp);
    ParsePlain(resp.text, parse);
    FirstParsedIs(CandidateTexts(resp), parse, 0);
  }

  /** A response none of whose texts decodes gives no payload. */
  lemma PayloadNone(resp: Response, parse: string -> Option<Json>)
    requires forall i | 0 <= i < |CandidateTexts(resp)| :: TryParseJson(CandidateTexts(resp)[i], parse).None?
    ensures ModelPayload(Answered(resp), parse).None?
  {
    FirstParsedNone(CandidateTexts(resp), parse);
  }

  /** The first text that decodes decides: when it is not a dictionary
      there is no payload, even if a later text is one. */
  lemma PayloadFirstDecoded(resp: Response, parse: string -> Option<Json>, k: nat)
    requires k < |CandidateTexts(resp)| && TryParseJson(CandidateTexts(resp)[k], parse).Some?
    requires forall j | 0 <= j < k :: TryParseJson(CandidateTexts(resp)[j], parse).None?
    ensures ModelPayload(Answered(resp), parse) == ObjectFields(TryParseJson(CandidateTexts(resp)[k], parse))
  {
    FirstParsedIs(CandidateTexts(resp), parse, k);
  }

  // ---------------------------------------------------------------------
  // The prompts

  /** The reduce prompt, cut at its three fields: the text before the
      start of the week, between the start and the end, between the end
      and the themes, and after the themes. */
  datatype ReduceTemplate = ReduceTemplate(intro: string, until: string, themesHeading: string, rest: string)

  /** The compress prompt, cut at its two fields. */
  datatype CompressTemplate = CompressTemplate(intro: string, preserving: string, tail: string)

  datatype Templates = Templates(reduce: ReduceTemplate, compress: CompressTemplate)

  /** The reducer's prompt templates, with `{{` and `}}` as the single
      braces formatting leaves. */
  const ReducerTemplates: Templates := Templates(
    ReduceTemplate(
      "You are creating a weekly product pulse for internal stakeholders (Product/Growth, Support, Leadership).\n"
      + "\nInput:\n- Time window: ",
      " to ",
      "\n- Candidate themes with key points and quotes:\n",
      "\n\nConstraints:\n"
      + "- Select the Top 3 themes that matter most based on frequency & impact.\n"
      + "- Produce:\n"
      + "  1) A short title for the pulse.\n"
      + "  2) A one-paragraph overview (max 60 words).\n"
      + "  3) A bullet list of the Top 3 themes:\n"
      + "     - For each, 1 sentence with sentiment + key insight.\n"
      + "  4) 3 short quotes (1\U{2013}2 lines each), clearly marked with theme.\n"
      + "  5) 3 specific action ideas (bullets), each linked to a theme.\n"
      + "\nStyle & limits:\n"
      + "- Total length: \U{2264}250 words.\n"
      + "- Use clear bullets and sub-bullets where needed.\n"
      + "- Executive-friendly, neutral tone. Do not overpraise.\n"
      + "- No names, emails, IDs, or any PII.\n"
      + "\nOutput strictly in this JSON structure:\n"
      + "{\n"
      + "  \"title\": \"...\",\n"
      + "  \"overview\": \"...\",\n"
      + "  \"themes\": [\n"
      + "    {\"name\": \"...\", \"summary\": \"...\"},\n"
      + "    ...\n"
      + "  ],\n"
      + "  \"quotes\": [\"...\", \"...\", \"...\"],\n"
      + "  \"actions\": [\"...\", \"...\", \"...\"]\n"
      + "}\n"),
    CompressTemplate(
      "Compress this note to at most ",
      " words, preserving:\n"
      + "- 3 themes, 3 quotes, 3 actions.\n"
      + "- Bullet-based, scannable structure.\n"
      + "- No PII.\n\n",
      "\n"))

  /** `REDUCE_PROMPT_TEMPLATE.format(week_start=..., week_end=..., themes_blob=...)` */
  function ReducePrompt(t: ReduceTemplate, weekStart: string, weekEnd: string, themesBlob: string): string
  {
    t.intro + weekStart + t.until + weekEnd + t.themesHeading + themesBlob + t.rest
  }

  /** `COMPRESS_PROMPT_TEMPLATE.format(max_words=..., note_payload=...)` */
  function CompressPrompt(t: CompressTemplate, maxWords: int, payload: string): string
  {
    t.intro + IntToString(maxWords) + t.preserving + payload + t.tail
  }

  /** The reduce prompt holds the week's bounds and the themes blob. */
  lemma ReducePromptHolds(t: ReduceTemplate, weekStart: string, weekEnd: string, themesBlob: string)
    ensures Contains(ReducePrompt(t, weekStart, weekEnd, themesBlob), weekStart)
    ensures Contains(ReducePrompt(t, weekStart, weekEnd, themesBlob), weekEnd)
    ensures Contains(ReducePrompt(t, weekStart, weekEnd, themesBlob), themesBlob)
  {
    var p := ReducePrompt(t, weekStart, weekEnd, themesBlob);
    assert p == t.intro + weekStart + (t.until + weekEnd + t.themesHeading + themesBlob + t.rest);
    ContainsInfix(t.intro, weekStart, t.until + weekEnd + t.themesHeading + themesBlob + t.rest);
    assert p == t.intro + weekStart + t.until + weekEnd + (t.themesHeading + themesBlob + t.rest);
    ContainsInfix(t.intro + weekStart + t.until, weekEnd, t.themesHeading + themesBlob + t.rest);
    assert p == t.intro + weekStart + t.until + weekEnd + t.themesHeading + themesBlob + t.rest;
    ContainsInfix(t.intro + weekStart + t.until + weekEnd + t.themesHeading, themesBlob, t.rest);
  }

  /** The compress prompt holds the word limit and the note payload. */
  lemma CompressPromptHolds(t: CompressTemplate, maxWords: int, payload: string)
    ensures Contains(CompressPrompt(t, maxWords, payload), IntToString(maxWords))
    ensures Contains(CompressPrompt(t, maxWords, payload), payload)
  {
    var n := IntToString(maxWords);
    assert CompressPrompt(t, maxWords, payload) == t.intro + n + (t.preserving + payload + t.tail);
    ContainsInfix(t.intro, n, t.preserving + payload + t.tail);
    assert CompressPrompt(t, maxWords, payload) == t.intro + n + t.preserving + payload + t.tail;
    ContainsInfix(t.intro + n + t.preserving, payload, t.tail);
  }

  // ---------------------------------------------------------------------
  // Building the note

  /** The calls the reduce stage makes outside this model: the language
      model, `json.loads` (`None` where it raises), `json.dumps` with
      indentation, and `json.dumps` of a note dictionary, given by its
      entries. */
  datatype ReducerServices = ReducerServices(generate: string -> ModelReply, parse: string -> Option<Json>,
                                             dumpsIndented: Json -> string, dumps: map<string, Json> -> string)

  /** The themes blob: the insights' dictionaries as an indented JSON
      list. */
  function ThemesBlob(insights: seq<ThemeInsight>, sv: ReducerServices): string
  {
    sv.dumpsIndented(JArray(seq(|insights|, i requires 0 <= i < |insights| => InsightDict(insights[i]))))
  }

  /** A note dictionary with its word count. */
  datatype Counted = Counted(note: map<string, Json>, wordCount: nat)

  /** The model's compressed version of a note, if it gives a dictionary. */
  function Compressed(note: map<string, Json>, maxWords: int, t: CompressTemplate, sv: ReducerServices)
    : Option<map<string, Json>>
  {
    ModelPayload(sv.generate(CompressPrompt(t, maxWords, sv.dumps(note))), sv.parse)
  }

  /** The note dictionary after the word limit, with its word count: a
      note within the limit is kept; one over it is replaced by the
      model's compressed note when that is a nonempty dictionary, whatever
      its own count, and kept otherwise. Counting a malformed note is an
      error. */
  function Limited(first: map<string, Json>, maxWords: int, t: CompressTemplate, sv: ReducerServices)
    : (r: Result<Counted>)
    ensures WordCount(first).Err? ==> r == Err(WordCount(first).reason)
    ensures r.Ok? ==> WordCount(r.value.note) == Ok(r.value.wordCount)
    ensures WordCount(first).Ok? && WordCount(first).value <= maxWords ==> r == Ok(Counted(first, WordCount(first).value))
    ensures r.Ok? && r.value.note != first ==>
              && WordCount(first).Ok? && WordCount(first).value > maxWords
              && Compressed(first, maxWords, t, sv) == Some(r.value.note) && r.value.note != map[]
    ensures WordCount(first).Ok? && WordCount(first).value > maxWords && Compressed(first, maxWords, t, sv).Some?
            && Compressed(first, maxWords, t, sv).value != map[]
            ==> r.Err? || r.value.note == Compressed(first, maxWords, t, sv).value
  {
    match WordCount(first)
    case Err(e) => Err(e)
    case Ok(n) =>
      if n <= maxWords then Ok(Counted(first, n))
      else
        var compressed := Compressed(first, maxWords, t, sv);
        if compressed.Some? && compressed.value != map[] then
          match WordCount(compressed.value)
          case Err(e) => Err(e)
          case Ok(m) => Ok(Counted(compressed.value, m))
        else Ok(Counted(first, n))
  }

  /** A key of a theme that is absent (`None`) or a string; anything else
      is `None` at the outer level. */
  function OptionalString(fields: map<string, Json>, key: string): Option<Option<string>>
  {
    if key !in fields then Some(None)
    else if fields[key].JString? then Some(Some(fields[key].s))
    else None
  }

  /** A theme of the note: a dictionary whose name and summary, where
      present, are strings. */
  function EntryOf(theme: Json): Option<ThemeEntry>
  {
    if !theme.JObject? then None
    else
      match (OptionalString(theme.fields, "name"), OptionalString(theme.fields, "summary"))
      case (Some(name), Some(summary)) => Some(ThemeEntry(name, summary))
      case _ => None
  }

  function EntriesOf(themes: seq<Json>): (r: Option<seq<ThemeEntry>>)
    ensures r.Some? ==> |r.value| == |themes| && forall i | 0 <= i < |themes| :: EntryOf(themes[i]) == Some(r.value[i])
    decreases |themes|
  {
    if themes == [] then Some([])
    else
      match (EntriesOf(themes[..|themes| - 1]), EntryOf(themes[|themes| - 1]))
      case (Some(init), Some(last)) => Some(init + [last])
      case _ => None
  }

  /** The note `build_weekly_note` returns for a note dictionary and its
      count: the title and the overview stripped, the themes, quotes and
      actions as they are. A title or an overview that is not a string
      cannot be stripped; themes, quotes or actions of another shape than
      the note's fields are reported as `Err("field type")`. */
  function NoteFrom(weekStart: string, weekEnd: string, d: map<string, Json>, wordCount: nat)
    : (r: Result<WeeklyPulseNote>)
    ensures !Get(d, "title", JString("")).JString? || !Get(d, "overview", JString("")).JString? ==>
              r == Err("AttributeError")
    ensures r.Ok? ==> && r.value.weekStart == weekStart && r.value.weekEnd == weekEnd
                      && r.value.title == Strip(Get(d, "title", JString("")).s)
                      && r.value.overview == Strip(Get(d, "overview", JString("")).s)
                      && IsStripped(r.value.title) && IsStripped(r.value.overview)
                      && r.value.wordCount == wordCount
  {
    var title := Get(d, "title", JString(""));
    var overview := Get(d, "overview", JString(""));
    if !title.JString? || !overview.JString? then Err("AttributeError")
    else
      var themes := Get(d, "themes", JArray([]));
      var entries := if themes.JArray? then EntriesOf(themes.items) else None;
      var quotes := StringList(Get(d, "quotes", JArray([])));
      var actions := StringList(Get(d, "actions", JArray([])));
      if entries.None? || quotes.None? || actions.None? then Err("field type")
      else Ok(WeeklyPulseNote(weekStart, weekEnd, Strip(title.s), Strip(overview.s),
                              entries.value, quotes.value, actions.value, wordCount))
  }

  /** The note dictionary the model gives for the reduce prompt, if any. */
  function FirstNote(weekStart: string, weekEnd: string, insights: seq<ThemeInsight>, t: Templates,
                     sv: ReducerServices): Option<map<string, Json>>
  {
    ModelPayload(sv.generate(ReduceRequest(weekStart, weekEnd, insights, t, sv)), sv.parse)
  }

  /** The reduce prompt for the week's insights. */
  function ReduceRequest(weekStart: string, weekEnd: string, insights: seq<ThemeInsight>, t: Templates,
                         sv: ReducerServices): string
  {
    ReducePrompt(t.reduce, weekStart, weekEnd, ThemesBlob(insights, sv))
  }

  /** `build_weekly_note`: no note when the model gives no dictionary or an
      empty one; otherwise the note built from the dictionary the word
      limit leaves. */
  function WeeklyNote(weekStart: string, weekEnd: string, insights: seq<ThemeInsight>, t: Templates,
                      maxWords: int, sv: ReducerServices): Result<Option<WeeklyPulseNote>>
  {
    Reduced(weekStart, weekEnd, FirstNote(weekStart, weekEnd, insights, t, sv), maxWords, t.compress, sv)
  }

  /** The note built from the dictionary the model first gave, if any. */
  function Reduced(weekStart: string, weekEnd: string, first: Option<map<string, Json>>, maxWords: int,
                   compress: CompressTemplate, sv: ReducerServices): Result<Option<WeeklyPulseNote>>
  {
    match first
    case None => Ok(None)
    case Some(d) =>
      if d == map[] then Ok(None)
      else
        match Limited(d, maxWords, compress, sv)
        case Err(e) => Err(e)
        case Ok(c) =>
          match NoteFrom(weekStart, weekEnd, c.note, c.wordCount)
          case Err(e) => Err(e)
          case Ok(note) => Ok(Some(note))
  }

  function SummaryTextsOf(themes: seq<ThemeEntry>): (r: seq<string>)
    ensures |r| == |themes| && forall i | 0 <= i < |themes| :: r[i] == SummaryText(themes[i])
  {
    seq(|themes|, i requires 0 <= i < |themes| => SummaryText(themes[i]))
  }

  /** The words a note holds: those of its overview, of its theme
      summaries, of its quotes and of its actions. */
  function NoteWords(note: WeeklyPulseNote): nat
  {
    |StrippedWords(note.overview)| + |AllWords(SummaryTextsOf(note.themes))|
    + |AllWords(note.quotes)| + |AllWords(note.actions)|
  }

  /** Where the fields of a note come from in its dictionary. */
  lemma NoteFromShape(weekStart: string, weekEnd: string, d: map<string, Json>, n: nat)
    requires NoteFrom(weekStart, weekEnd, d, n).Ok?
    ensures var note := NoteFrom(weekStart, weekEnd, d, n).value;
            && Get(d, "overview", JString("")).JString?
            && Get(d, "themes", JArray([])).JArray? && EntriesOf(Get(d, "themes", JArray([])).items) == Some(note.themes)
            && StringList(Get(d, "quotes", JArray([]))) == Some(note.quotes)
            && StringList(Get(d, "actions", JArray([]))) == Some(note.actions)
  {
  }

  /** Themes that make note entries give their summaries to the count. */
  lemma EntrySummaries(items: seq<Json>, themes: seq<ThemeEntry>)
    requires EntriesOf(items) == Some(themes)
    ensures ThemeSummaries(JArray(items)) == Ok(JsonStrings(SummaryTextsOf(themes)))
  {
    assert AllObjects(items) by {
      forall i | 0 <= i < |items|
        ensures items[i].JObject?
      {
        assert EntryOf(items[i]).Some?;
      }
    }
    assert SummaryFields(items) == JsonStrings(SummaryTextsOf(themes)) by {
      forall i | 0 <= i < |items|
        ensures SummaryField(items[i]) == JString(SummaryText(themes[i]))
      {
        assert EntryOf(items[i]) == Some(themes[i]);
      }
    }
  }

  /** A list of strings iterates as those strings. */
  lemma StringListItems(j: Json, xs: seq<string>)
    requires StringList(j) == Some(xs)
    ensures Iterated(j) == Ok(JsonStrings(xs))
  {
    assert j.items == JsonStrings(xs);
  }

  /** The sections of a dictionary whose fields are known. */
  lemma SectionsOf(d: map<string, Json>, overview: string, summaries: seq<string>, quotes: seq<string>,
                   actions: seq<string>)
    requires Get(d, "overview", JString("")) == JString(overview)
    requires ThemeSummaries(Get(d, "themes", JArray([]))) == Ok(JsonStrings(summaries))
    requires Iterated(Get(d, "quotes", JArray([]))) == Ok(JsonStrings(quotes))
    requires Iterated(Get(d, "actions", JArray([]))) == Ok(JsonStrings(actions))
    ensures Sections(d) == Ok(NoteSectionList(overview, summaries, quotes, actions))
  {
  }

  /** The sections counted in a dictionary a note is built from are the
      note's overview (before stripping), its theme summaries, its quotes
      and its actions. */
  lemma NoteFromSections(weekStart: string, weekEnd: string, d: map<string, Json>, n: nat)
    requires NoteFrom(weekStart, weekEnd, d, n).Ok?
    ensures var note := NoteFrom(weekStart, weekEnd, d, n).value;
            Sections(d) == Ok(NoteSectionList(Get(d, "overview", JString("")).s, SummaryTextsOf(note.themes),
                                              note.quotes, note.actions))
  {
    var note := NoteFrom(weekStart, weekEnd, d, n).value;
    NoteFromShape(weekStart, weekEnd, d, n);
    EntrySummaries(Get(d, "themes", JArray([])).items, note.themes);
    StringListItems(Get(d, "quotes", JArray([])), note.quotes);
    StringListItems(Get(d, "actions", JArray([])), note.actions);
    SectionsOf(d, Get(d, "overview", JString("")).s, SummaryTextsOf(note.themes), note.quotes, note.actions);
  }

  /** The count of a note's sections is the number of words the note
      holds, whether or not its overview was stripped. */
  lemma CountedWords(note: WeeklyPulseNote, overview: string, n: nat)
    requires note.overview == Strip(overview)
    requires SectionWordCount(NoteSectionList(overview, SummaryTextsOf(note.themes), note.quotes, note.actions)) == Ok(n)
    ensures NoteWords(note) == n
  {
    WordCountOfSections(overview, SummaryTextsOf(note.themes), note.quotes, note.actions);
    StripIdempotent(overview);
  }

  /** The count a note is built with, when it is the count of its
      dictionary, is the number of words the note holds. */
  lemma NoteWordCount(weekStart: string, weekEnd: string, d: map<string, Json>, n: nat)
    requires NoteFrom(weekStart, weekEnd, d, n).Ok? && WordCount(d) == Ok(n)
    ensures NoteWords(NoteFrom(weekStart, weekEnd, d, n).value) == n
  {
    var note := NoteFrom(weekStart, weekEnd, d, n).value;
    NoteFromSections(weekStart, weekEnd, d, n);
    CountedWords(note, Get(d, "overview", JString("")).s, n);
  }

  /** What `build_weekly_note` promises of a note, whatever dictionary the
      model gives: it covers the requested week, its title and overview are
      stripped, and its word count is the number of words it holds. */
  lemma WeeklyNoteShape(weekStart: string, weekEnd: string, first: Option<map<string, Json>>, maxWords: int,
                        compress: CompressTemplate, sv: ReducerServices)
    requires Reduced(weekStart, weekEnd, first, maxWords, compress, sv).Ok?
    requires Reduced(weekStart, weekEnd, first, maxWords, compress, sv).value.Some?
    ensures var note := Reduced(weekStart, weekEnd, first, maxWords, compress, sv).value.value;
            && note.weekStart == weekStart && note.weekEnd == weekEnd
            && IsStripped(note.title) && IsStripped(note.overview)
            && note.wordCount == NoteWords(note)
  {
    var c := Limited(first.value, maxWords, compress, sv).value;
    NoteWordCount(weekStart, weekEnd, c.note, c.wordCount);
  }

  /** No dictionary, or an empty one, gives no note; a first note within
      the limit is used as it is, without compressing; and a note exceeds
      the limit only when the first one did, so that compressing was
      tried. */
  lemma WeeklyNoteLimit(weekStart: string, weekEnd: string, first: Option<map<string, Json>>, maxWords: int,
                        compress: CompressTemplate, sv: ReducerServices)
    ensures var r := Reduced(weekStart, weekEnd, first, maxWords, compress, sv);
            && (first.None? || first.value == map[] ==> r == Ok(None))
            && (first.Some? && first.value != map[] && WordCount(first.value).Ok? && WordCount(first.value).value <= maxWords ==>
                  r == match NoteFrom(weekStart, weekEnd, first.value, WordCount(first.value).value)
                       case Err(e) => Err(e)
                       case Ok(note) => Ok(Some(note)))
            && (r.Ok? && r.value.Some? && r.value.value.wordCount > maxWords ==>
                  WordCount(first.value).Ok? && WordCount(first.value).value > maxWords)
  {
    if first.Some? && first.value != map[] {
      var d := first.value;
      var limited := Limited(d, maxWords, compress, sv);
      var r := Reduced(weekStart, weekEnd, first, maxWords, compress, sv);
      if limited.Ok? {
        var c := limited.value;
        var built := NoteFrom(weekStart, weekEnd, c.note, c.wordCount);
        assert r == if built.Ok? then Ok(Some(built.value)) else Err(built.reason);
        assert WordCount(c.note) == Ok(c.wordCount);
      } else {
        assert r == Err(limited.reason);
      }
    }
  }

  // ---------------------------------------------------------------------
  // The reducer

  /** `GeminiWeeklyReducer`: the configured word limit, its prompt
      templates and the services it calls. */
  class GeminiWeeklyReducer {
    const maxWords: int
    const templates: Templates
    const services: ReducerServices

    /** `__init__` with a key present. */
    constructor (maxWords: int, services: ReducerServices)
      ensures this.maxWords == maxWords && templates == ReducerTemplates && this.services == services
    {
      this.maxWords := maxWords;
      templates := ReducerTemplates;
      this.services := services;
    }

    /** `_extract_json_payload`: the candidate texts are tried in order
        and the first one that decodes is the payload. */
    method ExtractJsonPayload(resp: Response) returns (r: Option<Json>)
      ensures r == FirstParsed(CandidateTexts(resp), services.parse)
    {
      var texts := IterCandidateTexts(resp);
      var i := 0;
      while i < |texts|
        invariant 0 <= i <= |texts|
        invariant FirstSome(texts[i..], Decoder(services.parse)) == FirstParsed(texts, services.parse)
      {
        var parsed := TryParseJson(texts[i], services.parse);
        if parsed.Some? {
          return parsed;
        }
        assert texts[i..][1..] == texts[i + 1..];
        i := i + 1;
      }
      return None;
    }

    /** `_invoke_model` */
    method InvokeModel(prompt: string) returns (r: Option<map<string, Json>>)
      ensures r == ModelPayload(services.generate(prompt), services.parse)
    {
      var reply := services.generate(prompt);
      if reply.Failed? {
        return None;
      }
      var payload := ExtractJsonPayload(reply.response);
      if payload.None? || !payload.value.JObject? {
        return None;
      }
      return Some(payload.value.fields);
    }

    /** `_compress_note` */
    method CompressNote(note: map<string, Json>) returns (r: Option<map<string, Json>>)
      ensures r == Compressed(note, maxWords, templates.compress, services)
    {
      var prompt := CompressPrompt(templates.compress, maxWords, services.dumps(note));
      r := InvokeModel(prompt);
    }

    /** The word limit of `build_weekly_note`: count, and compress a note
        over the limit once. */
    method LimitWords(first: map<string, Json>) returns (r: Result<Counted>)
      ensures r == Limited(first, maxWords, templates.compress, services)
    {
      var count := CalculateWordCount(first);
      if count.Err? {
        return Err(count.reason);
      }
      if count.value <= maxWords {
        return Ok(Counted(first, count.value));
      }
      var compressed := CompressNote(first);
      if compressed.None? || compressed.value == map[] {
        return Ok(Counted(first, count.value));
      }
      var recount := CalculateWordCount(compressed.value);
      if recount.Err? {
        return Err(recount.reason);
      }
      return Ok(Counted(compressed.value, recount.value));
    }

    /** `build_weekly_note` */
    method BuildWeeklyNote(weekStart: string, weekEnd: string, insights: seq<ThemeInsight>)
      returns (r: Result<Option<WeeklyPulseNote>>)
      ensures r == WeeklyNote(weekStart, weekEnd, insights, templates, maxWords, services)
    {
      var prompt := ReduceRequest(weekStart, weekEnd, insights, templates, services);
      var noteDict := InvokeModel(prompt);
      assert noteDict == FirstNote(weekStart, weekEnd, insights, templates, services);
      if noteDict.None? || noteDict.value == map[] {
        r := Ok(None);
      } else {
        var counted := LimitWords(noteDict.value);
        if counted.Err? {
          r := Err(counted.reason);
        } else {
          var built := NoteFrom(weekStart, weekEnd, counted.value.note, counted.value.wordCount);
          r := if built.Err? then Err(built.reason) else Ok(Some(built.value));
        }
      }
    }
  }
}
