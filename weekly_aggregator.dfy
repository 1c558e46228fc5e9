/** Weekly theme counts (src/layer2/weekly_aggregator.py). The weekly
    directory is the list of its `week_*.json` files, each with the reviews
    read from it or `None` when reading it raised; the calendar (parsing and
    formatting `%Y-%m-%d` day numbers, and the Monday key of a date) is a
    parameter. */
module WeeklyAggregator {
  import opened Common
  import opened Sorting
  import opened Counting
  import opened Validator
  import opened ThemeClassifier

  datatype WeeklyThemeCounts = WeeklyThemeCounts(weekStartDate: string, weekEndDate: string,
                                                 themeCounts: Counts, totalReviews: nat)

  datatype ThemeAggregationResult = ThemeAggregationResult(weeklyCounts: seq<WeeklyThemeCounts>,
                                                           overallCounts: Counts, topThemes: Counts)

  /** A file of the weekly directory: its name and what `_load_weekly_file`
      returns for it, or `None` when that raises. */
  datatype WeekFile = WeekFile(name: string, reviews: Option<seq<ReviewModel>>)

  /** `strptime(key, "%Y-%m-%d")` as a day number, `strftime` of a day
      number, and `_week_key_from_date`. */
  datatype Calendar = Calendar(parseDay: string -> Option<int>, formatDay: int -> string,
                               weekKeyOf: int -> string)

  // ---------------------------------------------------------------------
  // Week keys

  /** `Path.stem` of a `*.json` file name. */
  function Stem(name: string): (r: string)
    ensures EndsWith(name, ".json") ==> name == r + ".json"
    ensures !EndsWith(name, ".json") ==> r == name
  {
    if EndsWith(name, ".json") then name[..|name| - 5] else name
  }

  /** `_extract_week_key`: the stem without a leading "week_". */
  function ExtractWeekKey(name: string): (r: string)
    ensures StartsWith(Stem(name), "week_") ==> Stem(name) == "week_" + r
    ensures !StartsWith(Stem(name), "week_") ==> r == Stem(name)
  {
    var stem := Stem(name);
    if StartsWith(stem, "week_") then stem[5..] else stem
  }

  /** The key of the file of a week. */
  lemma ExtractWeekKeyOfFile(key: string)
    ensures ExtractWeekKey("week_" + key + ".json") == key
  {
    var name := "week_" + key + ".json";
    assert name[|name| - 5..] == ".json";
    assert name[..|name| - 5] == "week_" + key;
    assert ("week_" + key)[..5] == "week_";
  }

  /** `_parse_week_key`: the key's day and the day six days later, or the
      key twice when it does not parse. */
  function ParseWeekKey(key: string, cal: Calendar): (string, string)
  {
    match cal.parseDay(key)
    case None => (key, key)
    case Some(day) => (cal.formatDay(day), cal.formatDay(day + 6))
  }

  /** When formatting a day and parsing it back gives the same day, a week
      ends six days after it starts. */
  lemma ParseWeekKeySpan(key: string, cal: Calendar)
    requires forall d :: cal.parseDay(cal.formatDay(d)) == Some(d)
    ensures cal.parseDay(key).Some? ==>
              var (start, end) := ParseWeekKey(key, cal);
              cal.parseDay(start).Some? && cal.parseDay(end) == Some(cal.parseDay(start).value + 6)
    ensures cal.parseDay(key).None? ==> ParseWeekKey(key, cal) == (key, key)
  {
  }

  // ---------------------------------------------------------------------
  // The classification lookup

  /** `{c.review_id: c for c in classifications}` */
  function Lookup(cs: seq<ReviewClassification>): (m: map<string, ReviewClassification>)
    ensures m.Keys == ClassifiedIds(cs)
    decreases |cs|
  {
    if cs == [] then map[]
    else
      var m := Lookup(cs[..|cs| - 1]);
      assert ClassifiedIds(cs) == ClassifiedIds(cs[..|cs| - 1]) + {cs[|cs| - 1].reviewId} by {
        assert forall k | 0 <= k < |cs| - 1 :: cs[..|cs| - 1][k] == cs[k];
      }
      m[cs[|cs| - 1].reviewId := cs[|cs| - 1]]
  }

  /** The last classification of a review id wins. */
  lemma {:induction false} LookupLastWins(cs: seq<ReviewClassification>, k: nat)
    requires k < |cs|
    requires forall t | k < t < |cs| :: cs[t].reviewId != cs[k].reviewId
    ensures Lookup(cs)[cs[k].reviewId] == cs[k]
    decreases |cs|
  {
    if k < |cs| - 1 {
      var init := cs[..|cs| - 1];
      assert init[k] == cs[k];
      LookupLastWins(init, k);
    }
  }

  // ---------------------------------------------------------------------
  // Grouping reviews by week

  /** `weekly_data`: each week key with its reviews, in insertion order. */
  type Groups = seq<(string, seq<ReviewModel>)>

  function GroupKeys(g: Groups): (ks: seq<string>)
    ensures |ks| == |g|
    ensures forall i | 0 <= i < |g| :: ks[i] == g[i].0
  {
    seq(|g|, i requires 0 <= i < |g| => g[i].0)
  }

  function FindGroup(g: Groups, key: string): (r: Option<nat>)
    ensures r.Some? ==> r.value < |g| && g[r.value].0 == key
    ensures r.None? ==> key !in GroupKeys(g)
    decreases |g|
  {
    if g == [] then None
    else if g[|g| - 1].0 == key then Some(|g| - 1)
    else
      var r := FindGroup(g[..|g| - 1], key);
      assert GroupKeys(g) == GroupKeys(g[..|g| - 1]) + [key] || GroupKeys(g) == GroupKeys(g[..|g| - 1]) + [g[|g| - 1].0];
      r
  }

  /** `weekly_data[key]`, empty for a key never grouped. */
  function GroupOf(g: Groups, key: string): seq<ReviewModel>
  {
    match FindGroup(g, key)
    case None => []
    case Some(i) => g[i].1
  }

  /** `weekly_data[key].append(review)` */
  function AddTo(g: Groups, key: string, review: ReviewModel): (r: Groups)
    ensures |r| >= |g| && r != []
  {
    match FindGroup(g, key)
    case None => g + [(key, [review])]
    case Some(i) => g[i := (key, g[i].1 + [review])]
  }

  /** Every grouped review is classified. */
  predicate GroupsClassified(g: Groups, lookup: map<string, ReviewClassification>)
  {
    forall i, j | 0 <= i < |g| && 0 <= j < |g[i].1| :: g[i].1[j].reviewId in lookup
  }

  predicate DistinctGroupKeys(g: Groups)
  {
    forall i, j | 0 <= i < j < |g| :: g[i].0 != g[j].0
  }

  /** What `AddTo` keeps. */
  lemma AddToFacts(g: Groups, key: string, review: ReviewModel, lookup: map<string, ReviewClassification>)
    requires GroupsClassified(g, lookup) && DistinctGroupKeys(g) && review.reviewId in lookup
    ensures GroupsClassified(AddTo(g, key, review), lookup) && DistinctGroupKeys(AddTo(g, key, review))
  {
    var r := AddTo(g, key, review);
    match FindGroup(g, key)
    case None =>
      assert r == g + [(key, [review])];
    case Some(i) =>
      assert r == g[i := (key, g[i].1 + [review])];
      forall t, j | 0 <= t < |r| && 0 <= j < |r[t].1| ensures r[t].1[j].reviewId in lookup {
        if t == i && j == |g[i].1| {
          assert r[t].1[j] == review;
        } else if t == i {
          assert r[t].1[j] == g[i].1[j];
        }
      }
  }

  /** The classified reviews of one weekly file, appended under its key. */
  function AddClassified(g: Groups, key: string, reviews: seq<ReviewModel>,
                         lookup: map<string, ReviewClassification>): (r: Groups)
    ensures |r| >= |g|
    decreases |reviews|
  {
    if reviews == [] then g
    else
      var r := AddClassified(g, key, reviews[..|reviews| - 1], lookup);
      if reviews[|reviews| - 1].reviewId in lookup then AddTo(r, key, reviews[|reviews| - 1]) else r
  }

  /** The grouping from the weekly files, in the order given. */
  function FromFiles(files: seq<WeekFile>, lookup: map<string, ReviewClassification>): Groups
    decreases |files|
  {
    if files == [] then []
    else
      var g := FromFiles(files[..|files| - 1], lookup);
      var file := files[|files| - 1];
      match file.reviews
      case None => g
      case Some(reviews) => AddClassified(g, ExtractWeekKey(file.name), reviews, lookup)
  }

  /** The grouping by review date. */
  function FromDates(reviews: seq<ReviewModel>, lookup: map<string, ReviewClassification>,
                     weekKeyOf: int -> string): Groups
    decreases |reviews|
  {
    if reviews == [] then []
    else
      var g := FromDates(reviews[..|reviews| - 1], lookup, weekKeyOf);
      var review := reviews[|reviews| - 1];
      if review.reviewId in lookup then AddTo(g, weekKeyOf(review.date), review) else g
  }

  function NameOf(file: WeekFile): string
  {
    file.name
  }

  /** `weekly_data`: the weekly files in name order, or the reviews by
      date when no weekly file gave a classified review. */
  function WeeklyData(reviews: seq<ReviewModel>, lookup: map<string, ReviewClassification>,
                      files: seq<WeekFile>, cal: Calendar): Groups
  {
    var fromFiles := FromFiles(SortByString(files, NameOf), lookup);
    if fromFiles == [] then FromDates(reviews, lookup, cal.weekKeyOf) else fromFiles
  }

  lemma {:induction false} AddClassifiedFacts(g: Groups, key: string, reviews: seq<ReviewModel>,
                                              lookup: map<string, ReviewClassification>)
    requires GroupsClassified(g, lookup) && DistinctGroupKeys(g)
    ensures GroupsClassified(AddClassified(g, key, reviews, lookup), lookup)
    ensures DistinctGroupKeys(AddClassified(g, key, reviews, lookup))
    decreases |reviews|
  {
    if reviews != [] {
      AddClassifiedFacts(g, key, reviews[..|reviews| - 1], lookup);
      var r := AddClassified(g, key, reviews[..|reviews| - 1], lookup);
      if reviews[|reviews| - 1].reviewId in lookup {
        AddToFacts(r, key, reviews[|reviews| - 1], lookup);
      }
    }
  }

  lemma {:induction false} FromFilesFacts(files: seq<WeekFile>, lookup: map<string, ReviewClassification>)
    ensures GroupsClassified(FromFiles(files, lookup), lookup) && DistinctGroupKeys(FromFiles(files, lookup))
    decreases |files|
  {
    if files != [] {
      FromFilesFacts(files[..|files| - 1], lookup);
      var file := files[|files| - 1];
      if file.reviews.Some? {
        AddClassifiedFacts(FromFiles(files[..|files| - 1], lookup), ExtractWeekKey(file.name),
                           file.reviews.value, lookup);
      }
    }
  }

  lemma {:induction false} FromDatesFacts(reviews: seq<ReviewModel>, lookup: map<string, ReviewClassification>,
                                          weekKeyOf: int -> string)
    ensures GroupsClassified(FromDates(reviews, lookup, weekKeyOf), lookup)
    ensures DistinctGroupKeys(FromDates(reviews, lookup, weekKeyOf))
    decreases |reviews|
  {
    if reviews != [] {
      FromDatesFacts(reviews[..|reviews| - 1], lookup, weekKeyOf);
      var review := reviews[|reviews| - 1];
      if review.reviewId in lookup {
        AddToFacts(FromDates(reviews[..|reviews| - 1], lookup, weekKeyOf), weekKeyOf(review.date), review, lookup);
      }
    }
  }

  /** Only classified reviews are grouped, under pairwise distinct week
      keys, and the dates are used only when the files gave nothing. */
  lemma WeeklyDataFacts(reviews: seq<ReviewModel>, lookup: map<string, ReviewClassification>,
                        files: seq<WeekFile>, cal: Calendar)
    ensures GroupsClassified(WeeklyData(reviews, lookup, files, cal), lookup)
    ensures DistinctGroupKeys(WeeklyData(reviews, lookup, files, cal))
    ensures FromFiles(SortByString(files, NameOf), lookup) != [] ==>
              WeeklyData(reviews, lookup, files, cal) == FromFiles(SortByString(files, NameOf), lookup)
  {
    FromFilesFacts(SortByString(files, NameOf), lookup);
    FromDatesFacts(reviews, lookup, cal.weekKeyOf);
  }

  // ---------------------------------------------------------------------
  // Counting

  /** The theme ids of the classified reviews of a week, in order. */
  function ThemeIdsOf(week: seq<ReviewModel>, lookup: map<string, ReviewClassification>): (ids: seq<string>)
    ensures |ids| <= |week|
    ensures (forall j | 0 <= j < |week| :: week[j].reviewId in lookup) ==> |ids| == |week|
    decreases |week|
  {
    if week == [] then []
    else
      var review := week[|week| - 1];
      ThemeIdsOf(week[..|week| - 1], lookup)
      + (if review.reviewId in lookup then [lookup[review.reviewId].themeId] else [])
  }

  /** The entry of `weekly_counts` for one week key. */
  function WeekEntry(key: string, data: Groups, lookup: map<string, ReviewClassification>,
                     cal: Calendar): WeeklyThemeCounts
  {
    var (start, end) := ParseWeekKey(key, cal);
    var week := GroupOf(data, key);
    WeeklyThemeCounts(start, end, Tally(ThemeIdsOf(week, lookup)), |week|)
  }

  function WeekEntries(keys: seq<string>, data: Groups, lookup: map<string, ReviewClassification>,
                       cal: Calendar): (r: seq<WeeklyThemeCounts>)
    ensures |r| == |keys|
    decreases |keys|
  {
    if keys == [] then []
    else WeekEntries(keys[..|keys| - 1], data, lookup, cal) + [WeekEntry(keys[|keys| - 1], data, lookup, cal)]
  }

  /** The theme ids counted into `overall_counts`, week after week. */
  function AllIds(keys: seq<string>, data: Groups, lookup: map<string, ReviewClassification>): seq<string>
    decreases |keys|
  {
    if keys == [] then []
    else AllIds(keys[..|keys| - 1], data, lookup) + ThemeIdsOf(GroupOf(data, keys[|keys| - 1]), lookup)
  }

  function Self(s: string): string
  {
    s
  }

  /** The week keys, in ascending order. */
  function WeekKeys(data: Groups): seq<string>
  {
    SortByString(GroupKeys(data), Self)
  }

  /** What `aggregate` returns. */
  function Aggregated(reviews: seq<ReviewModel>, classifications: seq<ReviewClassification>,
                      files: seq<WeekFile>, cal: Calendar): ThemeAggregationResult
  {
    var lookup := Lookup(classifications);
    var data := WeeklyData(reviews, lookup, files, cal);
    var keys := WeekKeys(data);
    var overall := Tally(AllIds(keys, data, lookup));
    ThemeAggregationResult(WeekEntries(keys, data, lookup, cal), overall, SortBy(overall, NegCount))
  }

  /** The lookup loop of `aggregate`. */
  method BuildLookup(classifications: seq<ReviewClassification>) returns (lookup: map<string, ReviewClassification>)
    ensures lookup == Lookup(classifications)
  {
    lookup := map[];
    for k := 0 to |classifications|
      invariant lookup == Lookup(classifications[..k])
    {
      assert classifications[..k + 1][..k] == classifications[..k];
      lookup := lookup[classifications[k].reviewId := classifications[k]];
    }
    assert classifications[..|classifications|] == classifications;
  }

  /** The loop of `aggregate` over the weekly files, in name order. */
  method GroupFiles(files: seq<WeekFile>, lookup: map<string, ReviewClassification>) returns (data: Groups)
    ensures data == FromFiles(SortByString(files, NameOf), lookup)
  {
    data := [];
    var sortedFiles := SortByString(files, NameOf);
    for i := 0 to |sortedFiles|
      invariant data == FromFiles(sortedFiles[..i], lookup)
    {
      FilesStep(sortedFiles, i, lookup);
      var file := sortedFiles[i];
      if file.reviews.Some? {
        data := AddFileReviews(data, file.name, file.reviews.value, lookup);
      }
    }
    assert sortedFiles[..|sortedFiles|] == sortedFiles;
  }

  /** The inner loop of `group_by_week`: each classified review of one
      file joins the group of the file's week. */
  method AddFileReviews(data: Groups, name: string, weekReviews: seq<ReviewModel>,
                        lookup: map<string, ReviewClassification>) returns (r: Groups)
    ensures r == AddClassified(data, ExtractWeekKey(name), weekReviews, lookup)
  {
    r := data;
    for j := 0 to |weekReviews|
      invariant r == AddClassified(data, ExtractWeekKey(name), weekReviews[..j], lookup)
    {
      ReviewsStep(data, ExtractWeekKey(name), weekReviews, j, lookup);
      var review := weekReviews[j];
      if review.reviewId in lookup {
        var weekKey := ExtractWeekKey(name);
        r := AddTo(r, weekKey, review);
      }
    }
    assert weekReviews[..|weekReviews|] == weekReviews;
  }

  lemma FilesStep(files: seq<WeekFile>, i: nat, lookup: map<string, ReviewClassification>)
    requires i < |files|
    ensures files[i].reviews.None? ==> FromFiles(files[..i + 1], lookup) == FromFiles(files[..i], lookup)
    ensures files[i].reviews.Some? ==>
              FromFiles(files[..i + 1], lookup)
              == AddClassified(FromFiles(files[..i], lookup), ExtractWeekKey(files[i].name), files[i].reviews.value, lookup)
  {
    assert files[..i + 1][..i] == files[..i];
  }

  lemma ReviewsStep(g: Groups, key: string, reviews: seq<ReviewModel>, j: nat, lookup: map<string, ReviewClassification>)
    requires j < |reviews|
    ensures reviews[j].reviewId in lookup ==>
              AddClassified(g, key, reviews[..j + 1], lookup) == AddTo(AddClassified(g, key, reviews[..j], lookup), key, reviews[j])
    ensures reviews[j].reviewId !in lookup ==>
              AddClassified(g, key, reviews[..j + 1], lookup) == AddClassified(g, key, reviews[..j], lookup)
  {
    assert reviews[..j + 1][..j] == reviews[..j];
  }

  /** The fallback loop of `aggregate`, grouping the reviews by date. */
  method GroupDates(reviews: seq<ReviewModel>, lookup: map<string, ReviewClassification>, cal: Calendar)
    returns (data: Groups)
    ensures data == FromDates(reviews, lookup, cal.weekKeyOf)
  {
    data := [];
    for j := 0 to |reviews|
      invariant data == FromDates(reviews[..j], lookup, cal.weekKeyOf)
    {
      assert reviews[..j + 1][..j] == reviews[..j];
      var review := reviews[j];
      if review.reviewId in lookup {
        data := AddTo(data, cal.weekKeyOf(review.date), review);
      }
    }
    assert reviews[..|reviews|] == reviews;
  }

  /** The counting loop of one week: the week's counts, and the overall
      counts after the week's themes. */
  method CountWeek(weekReviews: seq<ReviewModel>, lookup: map<string, ReviewClassification>,
                   before: seq<string>, overallBefore: Counts)
    returns (themeCounts: Counts, overallCounts: Counts)
    requires overallBefore == Tally(before)
    ensures themeCounts == Tally(ThemeIdsOf(weekReviews, lookup))
    ensures overallCounts == Tally(before + ThemeIdsOf(weekReviews, lookup))
  {
    themeCounts := [];
    overallCounts := overallBefore;
    assert before + [] == before;
    for j := 0 to |weekReviews|
      invariant themeCounts == Tally(ThemeIdsOf(weekReviews[..j], lookup))
      invariant overallCounts == Tally(before + ThemeIdsOf(weekReviews[..j], lookup))
    {
      ThemeIdsStep(weekReviews, j, lookup);
      var review := weekReviews[j];
      if review.reviewId in lookup {
        var classification := lookup[review.reviewId];
        CountStep(before, ThemeIdsOf(weekReviews[..j], lookup), classification.themeId);
        themeCounts := Increment(themeCounts, classification.themeId);
        overallCounts := Increment(overallCounts, classification.themeId);
      }
    }
    assert weekReviews[..|weekReviews|] == weekReviews;
  }

  lemma ThemeIdsStep(week: seq<ReviewModel>, j: nat, lookup: map<string, ReviewClassification>)
    requires j < |week|
    ensures week[j].reviewId in lookup ==>
              ThemeIdsOf(week[..j + 1], lookup) == ThemeIdsOf(week[..j], lookup) + [lookup[week[j].reviewId].themeId]
    ensures week[j].reviewId !in lookup ==> ThemeIdsOf(week[..j + 1], lookup) == ThemeIdsOf(week[..j], lookup)
  {
    assert week[..j + 1][..j] == week[..j];
  }

  lemma CountStep(before: seq<string>, ids: seq<string>, t: string)
    ensures Tally(ids + [t]) == Increment(Tally(ids), t)
    ensures Tally(before + (ids + [t])) == Increment(Tally(before + ids), t)
  {
    assert (ids + [t])[..|ids|] == ids;
    assert before + (ids + [t]) == (before + ids) + [t];
    assert ((before + ids) + [t])[..|before + ids|] == before + ids;
  }

  lemma KeysStep(keys: seq<string>, i: nat, data: Groups, lookup: map<string, ReviewClassification>, cal: Calendar)
    requires i < |keys|
    ensures WeekEntries(keys[..i + 1], data, lookup, cal)
            == WeekEntries(keys[..i], data, lookup, cal) + [WeekEntry(keys[i], data, lookup, cal)]
    ensures AllIds(keys[..i + 1], data, lookup) == AllIds(keys[..i], data, lookup) + ThemeIdsOf(GroupOf(data, keys[i]), lookup)
  {
    assert keys[..i + 1][..i] == keys[..i];
  }

  /** `aggregate` */
  method Aggregate(reviews: seq<ReviewModel>, classifications: seq<ReviewClassification>,
                   files: seq<WeekFile>, cal: Calendar)
    returns (r: ThemeAggregationResult)
    ensures r == Aggregated(reviews, classifications, files, cal)
  {
    var lookup := BuildLookup(classifications);
    var data := GroupFiles(files, lookup);
    if data == [] {
      data := GroupDates(reviews, lookup, cal);
    }
    assert data == WeeklyData(reviews, lookup, files, cal);

    var keys := SortByString(GroupKeys(data), Self);
    var weeklyCounts: seq<WeeklyThemeCounts> := [];
    var overallCounts: Counts := [];
    for i := 0 to |keys|
      invariant weeklyCounts == WeekEntries(keys[..i], data, lookup, cal)
      invariant overallCounts == Tally(AllIds(keys[..i], data, lookup))
    {
      KeysStep(keys, i, data, lookup, cal);
      var weekReviews := GroupOf(data, keys[i]);
      var themeCounts;
      themeCounts, overallCounts := CountWeek(weekReviews, lookup, AllIds(keys[..i], data, lookup), overallCounts);
      var (weekStart, weekEnd) := ParseWeekKey(keys[i], cal);
      weeklyCounts := weeklyCounts + [WeeklyThemeCounts(weekStart, weekEnd, themeCounts, |weekReviews|)];
    }
    assert keys[..|keys|] == keys;
    var topThemes := SortBy(overallCounts, NegCount);
    r := ThemeAggregationResult(weeklyCounts, overallCounts, topThemes);
  }

  // ---------------------------------------------------------------------
  // Properties of the aggregation

  /** The weeks are listed once each, in ascending key order. */
  lemma WeekKeysFacts(data: Groups)
    requires DistinctGroupKeys(data)
    ensures SortedByString(WeekKeys(data), Self)
    ensures multiset(WeekKeys(data)) == multiset(GroupKeys(data))
    ensures NoRepeats(WeekKeys(data))
  {
    SortByStringFacts(GroupKeys(data), Self);
    NoRepeatsPermutation(GroupKeys(data), WeekKeys(data));
  }

  /** Each week's theme counts add up to its number of reviews. */
  lemma WeekTotals(key: string, data: Groups, lookup: map<string, ReviewClassification>, cal: Calendar)
    requires GroupsClassified(data, lookup)
    ensures Total(WeekEntry(key, data, lookup, cal).themeCounts) == WeekEntry(key, data, lookup, cal).totalReviews
  {
    var week := GroupOf(data, key);
    TallyFacts(ThemeIdsOf(week, lookup));
    match FindGroup(data, key)
    case None =>
    case Some(i) =>
      assert forall j | 0 <= j < |week| :: week[j].reviewId in lookup by {
        assert week == data[i].1;
      }
  }

  /** The sum over the weeks of their count for `t`. */
  function SumOver(weekly: seq<WeeklyThemeCounts>, t: string): nat
    decreases |weekly|
  {
    if weekly == [] then 0 else SumOver(weekly[..|weekly| - 1], t) + CountOf(weekly[|weekly| - 1].themeCounts, t)
  }

  /** The overall count of a theme is the sum of its weekly counts. */
  lemma {:induction false} OverallIsSum(keys: seq<string>, data: Groups, lookup: map<string, ReviewClassification>,
                                        cal: Calendar, t: string)
    ensures CountOf(Tally(AllIds(keys, data, lookup)), t) == SumOver(WeekEntries(keys, data, lookup, cal), t)
    decreases |keys|
  {
    TallyFacts(AllIds(keys, data, lookup));
    if keys != [] {
      var init := keys[..|keys| - 1];
      var last := ThemeIdsOf(GroupOf(data, keys[|keys| - 1]), lookup);
      OverallIsSum(init, data, lookup, cal, t);
      TallyFacts(AllIds(init, data, lookup));
      TallyFacts(last);
      OccurrencesConcat(AllIds(init, data, lookup), last, t);
      var weekly := WeekEntries(keys, data, lookup, cal);
      assert weekly[..|weekly| - 1] == WeekEntries(init, data, lookup, cal);
    }
  }

  /** The results of `aggregate`: one entry per week in ascending key order
      whose counts add up to its reviews; overall counts that are the
      weekly sums; and top themes that are the overall counts sorted by
      count, descending, with ties in the order the themes were first
      counted. */
  lemma AggregatedFacts(reviews: seq<ReviewModel>, classifications: seq<ReviewClassification>,
                        files: seq<WeekFile>, cal: Calendar)
    ensures var lookup := Lookup(classifications);
            var data := WeeklyData(reviews, lookup, files, cal);
            var r := Aggregated(reviews, classifications, files, cal);
            && SortedByString(WeekKeys(data), Self) && NoRepeats(WeekKeys(data))
            && r.weeklyCounts == WeekEntries(WeekKeys(data), data, lookup, cal)
            && (forall i | 0 <= i < |r.weeklyCounts| :: Total(r.weeklyCounts[i].themeCounts) == r.weeklyCounts[i].totalReviews)
            && (forall t :: CountOf(r.overallCounts, t) == SumOver(r.weeklyCounts, t))
            && DistinctKeys(r.overallCounts)
            && SortedBy(r.topThemes, NegCount)
            && multiset(r.topThemes) == multiset(r.overallCounts)
            && (forall v :: WithKey(r.topThemes, NegCount, v) == WithKey(r.overallCounts, NegCount, v))
  {
    var lookup := Lookup(classifications);
    var data := WeeklyData(reviews, lookup, files, cal);
    var keys := WeekKeys(data);
    WeeklyDataFacts(reviews, lookup, files, cal);
    WeekKeysFacts(data);
    var r := Aggregated(reviews, classifications, files, cal);
    forall i | 0 <= i < |r.weeklyCounts| ensures Total(r.weeklyCounts[i].themeCounts) == r.weeklyCounts[i].totalReviews {
      WeekEntriesAt(keys, data, lookup, cal, i);
      WeekTotals(keys[i], data, lookup, cal);
    }
    forall t ensures CountOf(r.overallCounts, t) == SumOver(r.weeklyCounts, t) {
      OverallIsSum(keys, data, lookup, cal, t);
    }
    TallyFacts(AllIds(keys, data, lookup));
    SortByFacts(r.overallCounts, NegCount);
  }

  lemma {:induction false} WeekEntriesAt(keys: seq<string>, data: Groups, lookup: map<string, ReviewClassification>,
                                         cal: Calendar, i: nat)
    requires i < |keys|
    ensures WeekEntries(keys, data, lookup, cal)[i] == WeekEntry(keys[i], data, lookup, cal)
    decreases |keys|
  {
    if i < |keys| - 1 {
      WeekEntriesAt(keys[..|keys| - 1], data, lookup, cal, i);
    }
  }

  /** With nothing classified there is nothing to count. */
  lemma NothingClassified(reviews: seq<ReviewModel>, files: seq<WeekFile>, cal: Calendar)
    ensures Aggregated(reviews, [], files, cal) == ThemeAggregationResult([], [], [])
  {
    NoFilesGrouped(SortByString(files, NameOf));
    NoDatesGrouped(reviews, cal.weekKeyOf);
    assert WeeklyData(reviews, map[], files, cal) == [];
  }

  lemma {:induction false} NoFilesGrouped(files: seq<WeekFile>)
    ensures FromFiles(files, map[]) == []
    decreases |files|
  {
    if files != [] {
      NoFilesGrouped(files[..|files| - 1]);
      var file := files[|files| - 1];
      if file.reviews.Some? {
        NoneAdded([], ExtractWeekKey(file.name), file.reviews.value);
      }
    }
  }

  lemma {:induction false} NoneAdded(g: Groups, key: string, reviews: seq<ReviewModel>)
    ensures AddClassified(g, key, reviews, map[]) == g
    decreases |reviews|
  {
    if reviews != [] {
      NoneAdded(g, key, reviews[..|reviews| - 1]);
    }
  }

  lemma {:induction false} NoDatesGrouped(reviews: seq<ReviewModel>, weekKeyOf: int -> string)
    ensures FromDates(reviews, map[], weekKeyOf) == []
    decreases |reviews|
  {
    if reviews != [] {
      NoDatesGrouped(reviews[..|reviews| - 1], weekKeyOf);
    }
  }
}
