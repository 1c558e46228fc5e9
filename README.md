# App Review Insights Analyser — a verified model of its core

App Review Insights Analyser turns scraped app-store reviews into a weekly
product pulse. It has three layers:

- **Layer 1** cleans the reviews. It validates them against the review
  schema, removes duplicates by id and by fuzzy text similarity, and
  redacts personal data.
- **Layer 2** finds the themes:
  - embeds the reviews, with a cache keyed by a digest of the text;
  - summarises density-based clusters and merges the closest clusters
    down to a theme limit;
  - classifies reviews into a fixed theme table with a bounded retry loop
    and a fallback;
  - counts themes per ISO week.
- **Layer 3** writes the note:
  - picks the most frequent themes and cuts their reviews into chunks;
  - summarises each chunk, caching each answer;
  - reduces the per-theme insights to a weekly note within a word limit;
  - renders the note as Markdown.

This Dafny project models those operations and proves what they promise.
There is one module per source file:

- Validator, Deduplicator and PiiDetector (layer 1);
- Embeddings, Clustering, ThemeLimiter, ThemeClassifier, ThemeConfig and
  WeeklyAggregator (layer 2);
- Layer3Models, ThemeChunker, TopicSummarizer, SummaryCache, WeeklyReducer
  and Renderers (layer 3).

Four helper modules support them:

- Common: options, results, ASCII `strip`/`lower`, mapping, `join`, batching and
  subsequences;
- JsonValue: decoded JSON values;
- Counting: insertion-ordered counters, as `Counter` and `defaultdict(int)`
  keep them;
- Sorting: Python's stable `sorted`.

The model follows these conventions:

- A raised exception is an `Err` result naming the exception.
- A Python dictionary is either a Dafny `map` or, where its insertion order
  matters, a sequence of key/value pairs with distinct keys. A decoded JSON
  object is a `map` together with its keys in insertion order, which is
  the order in which iterating it yields them.
- Floats are `real`.
- Dates are seconds since an epoch.
- Classes whose fields the source updates in place are Dafny classes.
  These are the embedding and summary caches, the topic summarizer and the
  weekly reducer.
- Loops are methods whose loop invariants tie them to a specification
  function. The lemmas then state the source's promises about that
  function.

## Model

| member | source | states |
|---|---|---|
| Validator.EnsureStr | src/layer1/validator.py:28-33 | `None` becomes the empty string; any other value becomes a string with no whitespace at either end and no longer than the value |
| Validator.EnsureStrIdempotent | src/layer1/validator.py:28-33 | normalising an already normalised title or text changes nothing |
| Validator.ReplaceZ | src/layer1/validator.py:49 | the replaced string holds no "Z", is the input itself when it held none, and is never shorter |
| Validator.ParseDate | src/layer1/validator.py:42-52 | a datetime is kept; a string is accepted exactly when the ISO parser accepts it after the "Z" replacement, with the parser's value; any other type is rejected |
| Validator.MakeModel | src/layer1/validator.py:17-87 | a model is built exactly when the id is non-empty, the stripped text is non-empty, the rating is in 1..5 and the date parses; the model satisfies `Valid`, carries the record's id, rating, author and tag, the stripped text and the parsed date; a missing or empty title is replaced by the stripped first 60 characters of the text; otherwise the title is the stripped title |
| Validator.Validated | src/layer1/validator.py:83-96 | at most one model per record |
| Validator.ValidateReviews | src/layer1/validator.py:70-101 | returns exactly the models of the records that validate, in input order; `total` is the number of records and equals `accepted + rejected`; `accepted` is the number of models returned |
| Validator.CountSuccesses | src/layer1/validator.py:80-97 | the loop keeps every success in order and counts every failure, so kept plus rejected is the number of records |
| Validator.ValidatedValid | src/layer1/validator.py:20-40 | every returned model satisfies the field constraints |
| Validator.ValidatedPositions | src/layer1/validator.py:83-96 | the returned models come from strictly increasing record positions, each being the model of its record, and every record at any other position was rejected |
| Deduplicator.DaysBetweenAsWrittenAsymmetric | src/layer1/deduplicator.py:85-86 | as written, two instants one second apart are 0 days apart one way round and 1 day the other |
| Deduplicator.DaysBetweenFacts | src/layer1/deduplicator.py:85-86 | the corrected distance is non-negative and symmetric, agrees with the code whenever `left` is not earlier than `right`, and is the number of whole days in the absolute difference |
| Deduplicator.IsSimilarToExisting | src/layer1/deduplicator.py:62-82 | true exactly when the candidate's text is long enough and some existing review whose day distance, measured as the code measures it (the absolute value of the floored signed difference), is within the tolerance, with text long enough, scores at least the threshold; a short candidate is never similar |
| Deduplicator.Deduped | src/layer1/deduplicator.py:43-55 | never keeps more reviews than it is given |
| Deduplicator.DeduplicateReviews | src/layer1/deduplicator.py:32-59 | returns the reviews `Deduped` keeps; `kept` is their number and `kept + dropped` is the number of input reviews |
| Deduplicator.DedupedDistinctIds | src/layer1/deduplicator.py:44-47 | the kept review ids are pairwise distinct |
| Deduplicator.DedupedSubsequence | src/layer1/deduplicator.py:43-55 | the kept reviews are an order-preserving subsequence of the input |
| Deduplicator.DedupedPrefix | src/layer1/deduplicator.py:43-55 | what is kept from a prefix of the input stays kept: later reviews only append |
| Deduplicator.FirstKept | src/layer1/deduplicator.py:43-55 | the first review is always kept |
| Deduplicator.DroppedIff | src/layer1/deduplicator.py:44-55 | a review whose id was already kept is dropped whatever its text; any other review is dropped exactly when it is similar to a review kept before it, and is otherwise appended |
| PiiDetector.Unsorted | src/layer1/pii_detector.py:39-45 | without the analyser the findings are the email, phone and URL matches in that order; with it, one more finding per analyser entity |
| PiiDetector.Detect | src/layer1/pii_detector.py:38-50 | sorting keeps the number of findings |
| PiiDetector.DetectFacts | src/layer1/pii_detector.py:46 | the findings are sorted by start, are a permutation of the unsorted findings, and the findings sharing a start keep their detection order (the sort is stable) |
| PiiDetector.Redacted | src/layer1/pii_detector.py:53-55 | with no findings the text is returned unchanged |
| PiiDetector.Redact | src/layer1/pii_detector.py:52-66 | `redact` returns the splice of the text around the sorted findings, each accepted span replaced by the mask |
| PiiDetector.RedactFindings | src/layer1/pii_detector.py:57-66 | the cursor loop builds exactly `Redacted` for the sorted findings |
| PiiDetector.SpliceStep | src/layer1/pii_detector.py:59-64 | a finding that starts before the cursor is skipped; otherwise the text from the cursor to its start and one mask are emitted and the cursor moves to its end |
| PiiDetector.SpliceRestores | src/layer1/pii_detector.py:62-65 | between masks the text is copied verbatim: putting each masked span back in place of its mask gives the text from the cursor on |
| PiiDetector.RedactedRestores | src/layer1/pii_detector.py:57-66 | with every in-bounds span put back, `redact`'s pieces join to the original text |
| PiiDetector.SpliceLength | src/layer1/pii_detector.py:57-66 | the output length is the text's length from the cursor, less the accepted spans' lengths, plus one mask per accepted span |
| PiiDetector.AcceptedDisjoint | src/layer1/pii_detector.py:60-64 | the masked spans never overlap: each starts at or after the end of the one masked before it |
| PiiDetector.AcceptedAll | src/layer1/pii_detector.py:60-64 | findings that are already disjoint and start after the cursor are all masked |
| PiiDetector.RedactedLength | src/layer1/pii_detector.py:57-66 | for disjoint in-bounds findings the length is `len(text) - sum(end - start) + k * len(mask)` |
| PiiDetector.CleanReviewsTexts | src/layer1/pii_detector.py:81-84 | one output per input text, in order, each the text redacted with the default mask |
| PiiDetector.CleanText | src/layer1/pii_detector.py:84 | one text's findings are detected and masked with the default mask |
| Embeddings.EmbeddingCache.constructor | src/layer2/embeddings.py:33-36 | the cache starts with the dictionary read from the file when there is one, an empty one otherwise, and has written nothing |
| Embeddings.EmbeddingCache.Get | src/layer2/embeddings.py:38-39 | the stored vector for a present key, `None` for an absent one |
| Embeddings.EmbeddingCache.Set | src/layer2/embeddings.py:41-42 | the key now holds the vector and every other key keeps its vector |
| Embeddings.EmbeddingCache.Flush | src/layer2/embeddings.py:44-47 | the whole dictionary is written once more and the dictionary is unchanged |
| Embeddings.CacheKeyInjective | src/layer2/embeddings.py:100-103 | for ids without a colon, equal keys mean equal ids and equal digests of the text |
| Embeddings.Misses | src/layer2/embeddings.py:70-78 | the positions of reviews whose key is not cached, strictly increasing |
| Embeddings.MissesComplete | src/layer2/embeddings.py:70-78 | every review whose key is not cached is among the misses |
| Embeddings.PendingTexts | src/layer2/embeddings.py:77 | one text per miss |
| Embeddings.PendingKeys | src/layer2/embeddings.py:78 | one key per miss |
| Embeddings.StoreAllFacts | src/layer2/embeddings.py:87-89 | storing the new vectors adds exactly the stored keys; a key not stored keeps its vector, and a stored key holds the vector of its last store |
| Embeddings.LookUpAll | src/layer2/embeddings.py:70-78 | the first loop collects the cached vector of every hit by position and sends exactly the missed texts, with their positions and keys, in input order |
| Embeddings.InOrder | src/layer2/embeddings.py:95-98 | the ids are the reviews' ids in input order, and the vectors are the collected vectors in position order |
| Embeddings.StoreNew | src/layer2/embeddings.py:87-89 | the second loop collects each new vector at its review's position and stores it under the review's key, leaving the hits collected |
| Embeddings.EncodeAndStore | src/layer2/embeddings.py:80-90 | with nothing pending the encoder is not used and the cache is untouched; otherwise the pairs `zip` forms are stored, the cache is flushed once, and a vector count different from the text count fails |
| Embeddings.EmbedReviews | src/layer2/embeddings.py:62-98 | hits are never re-encoded: the encoder receives exactly the missed texts in input order; every review gets one vector, the cached one for a hit and the encoded one for a miss; the ids are the input ids in order; the cache gains the new vectors and is flushed only when something was encoded |
| Embeddings.Gathered | src/layer2/embeddings.py:87-96 | once the misses are encoded every position has a vector: the cached one for a hit, the encoded one for a miss |
| Embeddings.Finish | src/layer2/embeddings.py:92-98 | a failed `zip` gives no batch; otherwise every review with its vector, in input order |
| Clustering.SortedDistinct | src/layer2/clustering.py:71 | `sorted(set(labels))`: strictly increasing and holding exactly the labels that occur |
| Clustering.Select | src/layer2/clustering.py:74-77 | the members of a label are non-empty exactly when the label occurs |
| Clustering.SelectIsIndexed | src/layer2/clustering.py:74-77 | the members of `c` are the elements at the indices labelled `c`, in ascending index order, and every index labelled `c` is among those indices |
| Clustering.BuildSummaries | src/layer2/clustering.py:64-84 | the loop over the sorted distinct labels builds exactly `SummariesFor` them: one entry per label other than noise, in ascending order |
| Clustering.SummariesStep | src/layer2/clustering.py:71-83 | one more label adds nothing for noise and otherwise appends that label's summary under its key |
| Clustering.Cluster | src/layer2/clustering.py:42-62 | an empty batch gives empty labels, probabilities and summaries; otherwise the labels are kept, missing probabilities become 1.0 per item, and the summaries are built from them |
| Clustering.DropNoise | src/layer2/clustering.py:72-73 | keeps exactly the keys other than noise |
| Clustering.KeysOfSummaries | src/layer2/clustering.py:71-83 | the dict's keys are the loop's keys without noise, in loop order |
| Clustering.EntriesOfSummaries | src/layer2/clustering.py:78-83 | every key is a label that occurs, and every summary's `label` equals its key |
| Clustering.SummaryKeys | src/layer2/clustering.py:71-83 | the keys are exactly the labels other than noise, ascending, and every summary's `label` is its key |
| Clustering.SummaryContents | src/layer2/clustering.py:74-83 | a summary has its label, non-empty member ids taken at exactly the indices labelled with it in ascending order, the componentwise mean of their vectors as centroid and the mean of their probabilities as strength |
| Clustering.SingletonCentroid | src/layer2/clustering.py:75-76 | a cluster of one item has that item's vector as centroid and its probability as strength |
| Clustering.DefaultStrength | src/layer2/clustering.py:57-59 | with the default probabilities of 1.0 every strength is 1.0 |
| Clustering.StrengthBounds | src/layer2/clustering.py:76 | probabilities in [0, 1] give strengths in [0, 1] |
| Clustering.SumBounds | src/layer2/clustering.py:76 | a sum of values in [0, 1] lies between 0 and their number |
| Clustering.MeanBounds | src/layer2/clustering.py:76 | a mean of values in [0, 1] lies in [0, 1] |
| Clustering.SummariesGrouped | src/layer2/clustering.py:71-77 | concatenating the summaries' member ids gives the ids of each non-noise key's members in turn |
| Clustering.SummaryPartition | src/layer2/clustering.py:71-77 | the summaries' member ids together are, as a multiset, exactly the ids of the non-noise items: every such item is in exactly one summary |
| Clustering.SummaryMeanOver | src/layer2/clustering.py:75-76 | a built summary satisfies the mean invariant `MeanOver` for the assignment that gives each id its own vector and probability |
| ThemeLimiter.DotSymmetric | src/layer2/theme_limiter.py:68 | the dot product is symmetric |
| ThemeLimiter.CosineSymmetric | src/layer2/theme_limiter.py:64-68 | `cosine_similarity` is symmetric in its arguments and is 0.0 whenever either norm is zero |
| ThemeLimiter.CosineSelf | src/layer2/theme_limiter.py:64-68 | with the norm the square root of the self dot product, a non-zero vector has similarity 1.0 with itself |
| ThemeLimiter.Scan | src/layer2/theme_limiter.py:40-46 | the scan of the nested loops always yields a pair `i < j`, inside the list whenever the starting pair is |
| ThemeLimiter.BestPair | src/layer2/theme_limiter.py:37-46 | the returned pair has `i < j`, and both lie in the list when it has two clusters |
| ThemeLimiter.FindMostSimilarPair | src/layer2/theme_limiter.py:37-46 | the nested loops return exactly `BestPair` |
| ThemeLimiter.TracksStep | src/layer2/theme_limiter.py:42-45 | scoring one more pair replaces the best pair only when its score is strictly higher |
| ThemeLimiter.TracksRow | src/layer2/theme_limiter.py:40-41 | finishing a row keeps the loops' invariant |
| ThemeLimiter.TracksDone | src/layer2/theme_limiter.py:46 | after the last row the pair is (0, 1) when no pair scores above -1.0, and otherwise the first pair with the highest score |
| ThemeLimiter.ScanTracks | src/layer2/theme_limiter.py:38-46 | the scan from any point of the loops ends at the pair the loops promise |
| ThemeLimiter.BestPairFacts | src/layer2/theme_limiter.py:37-46 | the pair is (0, 1) when no pair scores above -1.0; otherwise it is the first pair in ascending (i, j) order with the maximal score, so ties keep the earliest pair |
| ThemeLimiter.Merge | src/layer2/theme_limiter.py:49-61 | the merge carries the new label, the left members followed by the right members, and a centroid of the same dimension |
| ThemeLimiter.MergeCentroid | src/layer2/theme_limiter.py:53 | each centroid component, times the total member count, is the sum of the two components weighted by their member counts |
| ThemeLimiter.MergeStrength | src/layer2/theme_limiter.py:54 | the strength, times the total member count, is the sum of the two strengths weighted by their member counts |
| ThemeLimiter.MergeMeanOver | src/layer2/theme_limiter.py:49-61 | if both clusters' centroid and strength are the means over their members, the merged centroid and strength are the means over the concatenated members |
| ThemeLimiter.MergeStrengthBounds | src/layer2/theme_limiter.py:54 | strengths in [0, 1] stay in [0, 1] when merged |
| ThemeLimiter.Without | src/layer2/theme_limiter.py:32 | removing positions i and j leaves the other clusters in their order, two fewer |
| ThemeLimiter.AllIdsMergeStep | src/layer2/theme_limiter.py:32-33 | replacing clusters i and j by their merge keeps the multiset of review ids |
| ThemeLimiter.LayoutDistinct | src/layer2/theme_limiter.py:27-33 | untouched clusters with distinct labels no greater than the maximum, followed by merges with increasing labels above it, all have distinct labels |
| ThemeLimiter.MaxLabel | src/layer2/theme_limiter.py:27 | no cluster has a label above `max(...)` |
| ThemeLimiter.MaxLabelAttained | src/layer2/theme_limiter.py:27 | `max(...)` is the label of some cluster |
| ThemeLimiter.Step | src/layer2/theme_limiter.py:29-33 | one turn of the loop leaves one cluster fewer, the last one carrying the current label |
| ThemeLimiter.StepFacts | src/layer2/theme_limiter.py:29-33 | one turn keeps the clusters non-empty, of one dimension, and with the same multiset of review ids |
| ThemeLimiter.ReduceUnfold | src/layer2/theme_limiter.py:28-33 | while the limit is exceeded, the loop's outcome is its outcome after merging the most similar pair with the next label |
| ThemeLimiter.ReduceOutcome | src/layer2/theme_limiter.py:24-34 | within the limit the clusters are returned unchanged; above it the loop succeeds exactly when `max_themes >= 1`, and then leaves exactly `max_themes` clusters |
| ThemeLimiter.ReduceKeepsIds | src/layer2/theme_limiter.py:28-33 | the loop keeps the multiset of review ids and keeps the clusters non-empty and of one dimension |
| ThemeLimiter.ReduceKeepsMeans | src/layer2/theme_limiter.py:53-54 | the loop keeps every cluster's centroid and strength the means over its members |
| ThemeLimiter.ReduceKeepsUnit | src/layer2/theme_limiter.py:54 | the loop keeps every strength in [0, 1] |
| ThemeLimiter.ReduceLastLabel | src/layer2/theme_limiter.py:27-33 | the last merge is appended last and carries the last label given |
| ThemeLimiter.ReduceKeepsLayout | src/layer2/theme_limiter.py:32-33 | the loop keeps the untouched clusters in their original order in front of merged clusters whose labels increase |
| ThemeLimiter.ReduceKeepsDistinct | src/layer2/theme_limiter.py:27-33 | starting above every existing label, the loop keeps the labels distinct |
| ThemeLimiter.ReducePreserved | src/layer2/theme_limiter.py:28-33 | the loop keeps every review id, non-empty members of one dimension, distinct labels, the mean invariant and strengths in [0, 1] |
| ThemeLimiter.ReduceMergedLayout | src/layer2/theme_limiter.py:27-33 | from `max + 1` on, the result is the untouched clusters in order followed by the merges, labelled upwards, the last labelled `max + merges` |
| ThemeLimiter.EnforcedOutcome | src/layer2/theme_limiter.py:22-34 | at most `max_themes` clusters are returned unchanged, in order; otherwise the result, when `max_themes >= 1`, has exactly `max_themes` clusters, and the loop raises when `max_themes < 1` |
| ThemeLimiter.EnforcedFacts | src/layer2/theme_limiter.py:22-34 | `enforce` keeps every review id, the mean invariant, strengths in [0, 1] and distinct labels; the untouched clusters keep their order and the merged ones follow with labels increasing from the largest original label plus one |
| ThemeLimiter.Enforce | src/layer2/theme_limiter.py:22-34 | the loop of `enforce` computes exactly `Enforced` |
| WeeklyAggregator.Stem | src/layer2/weekly_aggregator.py:130 | a `.json` name is its stem followed by ".json"; any other name is its own stem |
| WeeklyAggregator.ExtractWeekKey | src/layer2/weekly_aggregator.py:128-133 | a stem that starts with "week_" is "week_" followed by the key; any other stem is the key itself |
| WeeklyAggregator.ExtractWeekKeyOfFile | src/layer2/weekly_aggregator.py:128-133 | the file `week_<key>.json` gives back exactly `<key>` |
| WeeklyAggregator.ParseWeekKeySpan | src/layer2/weekly_aggregator.py:142-149 | a key that parses as a date gives a start date and an end date six days later; a key that does not parse is returned twice |
| WeeklyAggregator.Lookup | src/layer2/weekly_aggregator.py:50 | the lookup holds exactly the classified review ids |
| WeeklyAggregator.LookupLastWins | src/layer2/weekly_aggregator.py:50 | when a review id is classified more than once, the last classification is the one looked up |
| WeeklyAggregator.BuildLookup | src/layer2/weekly_aggregator.py:50 | the loop builds the dictionary `Lookup` describes |
| WeeklyAggregator.GroupFiles | src/layer2/weekly_aggregator.py:54-63 | the loop over the weekly files, taken in name order, skipping a file that fails to load, gives the grouping `FromFiles` describes |
| WeeklyAggregator.AddFileReviews | src/layer2/weekly_aggregator.py:58-61 | each classified review of one file is appended to the group of the file's week key, in file order; an unclassified review is skipped |
| WeeklyAggregator.GroupDates | src/layer2/weekly_aggregator.py:66-71 | the fallback loop groups every classified review under the week key of its date, in input order |
| WeeklyAggregator.WeeklyDataFacts | src/layer2/weekly_aggregator.py:53-71 | only classified reviews are grouped, each week key occurs once, and the dates are used only when the weekly files grouped nothing |
| WeeklyAggregator.CountWeek | src/layer2/weekly_aggregator.py:79-85 | one week's counts are the tally of its reviews' theme ids, and the overall counts become the tally of every theme id counted so far |
| WeeklyAggregator.Aggregate | src/layer2/weekly_aggregator.py:42-105 | the whole of `aggregate` returns the result `Aggregated` describes |
| WeeklyAggregator.WeekKeysFacts | src/layer2/weekly_aggregator.py:77 | the weeks are visited in ascending key order, each grouped week exactly once |
| WeeklyAggregator.WeekTotals | src/layer2/weekly_aggregator.py:81-94 | a week's theme counts add up to its number of reviews, since every grouped review is classified |
| WeeklyAggregator.OverallIsSum | src/layer2/weekly_aggregator.py:75-85 | the overall count of every theme is the sum of its weekly counts |
| WeeklyAggregator.AggregatedFacts | src/layer2/weekly_aggregator.py:42-105 | the weeks come in ascending key order without repeats; each week's counts add up to its total; each overall count is the sum of the weekly counts; the top themes are the overall counts, each once, sorted by descending count with ties kept in first-counted order |
| WeeklyAggregator.NothingClassified | src/layer2/weekly_aggregator.py:50-105 | with no classifications the result has no weeks, no counts and no top themes |
| ThemeClassifier.FuzzyMatchFrom | src/layer2/theme_classifier.py:232-235 | a match is the position of the first remaining key, in table order, that contains the id or is contained in it: no earlier remaining key does either; no match means no remaining key does |
| ThemeClassifier.EmptyThemeIdAsWritten | src/layer2/theme_classifier.py:225-238 | as written, an empty (missing) theme id is contained in the first key, so it is classified as "glitches" rather than the default theme |
| ThemeClassifier.ValidatedThemeId | src/layer2/theme_classifier.py:225-238 | with the empty-id correction, the normalised theme id is always a key of the theme table |
| ThemeClassifier.ValidatedThemeIdCases | src/layer2/theme_classifier.py:225-238 | with the empty-id correction: an empty id gives the default theme; a table key is kept; any other id gets the first key in table order that contains it or that it contains, and the default exactly when no key does; a key related to the id is always found when one exists; the corrected function differs from the code as written only on the empty id |
| ThemeClassifier.ValidatedThemeIdIdempotent | src/layer2/theme_classifier.py:225-238 | with the correction, validating an already validated id changes nothing |
| ThemeClassifier.ValidatedThemeIdAsWritten | src/layer2/theme_classifier.py:225-238 | the code as written always returns a key of the theme table |
| ThemeClassifier.ValidatedThemeIdAsWrittenCases | src/layer2/theme_classifier.py:225-238 | as written, a key is kept, and any other id (the empty one included) gets the first key in table order that contains it or that it contains, and the default exactly when no key does |
| ThemeClassifier.ValidatedThemeIdAsWrittenIdempotent | src/layer2/theme_classifier.py:225-238 | as written, validating an already validated id changes nothing |
| ThemeClassifier.ValidateThemeId | src/layer2/theme_classifier.py:225-238 | the loop with its early returns computes `_validate_theme_id` as written, empty id included |
| ThemeClassifier.AfterFirstLine | src/layer2/theme_classifier.py:166 | dropping the first line never lengthens the text |
| ThemeClassifier.FencedPayload | src/layer2/theme_classifier.py:161-166 | for a fenced, "json"-tagged body the corrected cleaning hands the decoder exactly the body, while the code as written hands it the body without its first line |
| ThemeClassifier.FencedMultiLineAsWritten | src/layer2/theme_classifier.py:161-166 | the fenced JSON text "[\n1]" reaches the decoder as "1]" as written, and intact after the correction |
| ThemeClassifier.Unfenced | src/layer2/theme_classifier.py:161-166 | any fenced payload whose unfenced text starts with "json" is cleaned to the stripped rest by the correction, and to that rest without its first line as written |
| ThemeClassifier.ParseResponse | src/layer2/theme_classifier.py:159-177 | the payload is cleaned as the code does, first line dropped included; one that does not decode gives an empty list; a decoded list is returned as is; an object with a "reviews" key gives that value; any other value is wrapped in a one-element list |
| ThemeClassifier.Entry | src/layer2/theme_classifier.py:188-206 | a kept entry is for a review of the batch, has a table theme id (validated as written, so a missing `chosen_theme` gives the first theme) and that theme's name |
| ThemeClassifier.ModelEntries | src/layer2/theme_classifier.py:188-206 | the loop over the model's entries gives the classifications `FromEntries` describes, failing at the first entry that raises |
| ThemeClassifier.BuildClassifications | src/layer2/theme_classifier.py:179-223 | the model's entries in order, then a default classification for each batch review they leave out |
| ThemeClassifier.FromEntriesErr | src/layer2/theme_classifier.py:188-206 | once an entry raises, the attempt fails whatever entries follow |
| ThemeClassifier.FromEntriesFacts | src/layer2/theme_classifier.py:188-206 | every classification taken from the model is for a batch review and carries a table theme with its name |
| ThemeClassifier.DefaultsFacts | src/layer2/theme_classifier.py:209-221 | the defaults are exactly for the batch reviews not yet classified, each with the default theme, its name and the default reason |
| ThemeClassifier.BuiltFacts | src/layer2/theme_classifier.py:179-223 | every classification built is for a batch review and carries a table theme with its name |
| ThemeClassifier.BuiltCovers | src/layer2/theme_classifier.py:179-223 | every review of the batch is classified at least once |
| ThemeClassifier.Fallback | src/layer2/theme_classifier.py:240-251 | one classification per review, in order, each with the default theme and the fallback reason |
| ThemeClassifier.ClassifyBatch | src/layer2/theme_classifier.py:123-148 | the retry loop returns the first attempt that succeeds, or the fallback after `max_retries + 1` failed attempts |
| ThemeClassifier.BatchOutcomeCovers | src/layer2/theme_classifier.py:123-148 | whatever the attempts give, a batch's classifications are for its reviews and table themes, and cover every review of it |
| ThemeClassifier.AllAttemptsFail | src/layer2/theme_classifier.py:132-148 | when every attempt fails the batch gets exactly the fallback classifications |
| ThemeClassifier.ClassifyReviews | src/layer2/theme_classifier.py:102-121 | the batching loop returns the concatenation of the batches' outcomes `Classified` describes |
| ThemeClassifier.FromBatchesFacts | src/layer2/theme_classifier.py:116-119 | the classifications of the batches from a given one on are for their reviews and table themes |
| ThemeClassifier.FromBatchesCovers | src/layer2/theme_classifier.py:116-119 | every review of those batches is classified at least once |
| ThemeClassifier.ClassifiedCovers | src/layer2/theme_classifier.py:102-121 | no reviews give no classifications; otherwise every review is classified at least once, only reviews of the input are classified, and every theme is a table theme |
| ThemeConfig.FixedThemesKeyed | src/layer2/theme_config.py:19-50 | the table has six entries in insertion order; each key is its definition's id and carries its theme's name |
| ThemeConfig.GetAllThemeIds | src/layer2/theme_config.py:61-63 | the six keys in table order: pairwise distinct, non-empty, lower-case letters and underscores |
| ThemeConfig.ThemeIdsNormalised | src/layer2/theme_config.py:61-63 | every key is already lower-case and stripped, so normalising a key leaves it unchanged |
| ThemeConfig.DefaultThemeIsFixed | src/layer2/theme_config.py:53 | the default theme id is a key of the table |
| ThemeConfig.Position | src/layer2/theme_config.py:58 | a key is found at its own position; a missing key is not a table key |
| ThemeConfig.LookupPosition | src/layer2/theme_config.py:56-58 | the lower-cased id's position when it is a key, otherwise the default theme's |
| ThemeConfig.GetThemeById | src/layer2/theme_config.py:56-58 | a lower-cased key gives its own definition; anything else gives the default theme's; the result is always a table definition |
| ThemeConfig.ThemeNameAgrees | src/layer2/theme_config.py:56-58 | the name lookup agrees with `get_theme_by_id` and with the table's name for the key |
| ThemeConfig.GetThemeByIdCaseInsensitive | src/layer2/theme_config.py:56-58 | ids that agree ignoring case give the same definition |
| ThemeConfig.PromptLines | src/layer2/theme_config.py:66-71 | one prompt line per table entry |
| ThemeConfig.FormatThemesLines | src/layer2/theme_config.py:66-71 | splitting the prompt text at line breaks gives back one line per theme, in table order, numbered from 1 |
| ThemeConfig.FindDiscovered | src/layer2/theme_config.py:91-94 | the match is a discovered theme whose id equals the wanted id ignoring case; none means no discovered theme matches |
| ThemeConfig.GetThemeByIdOrDiscovered | src/layer2/theme_config.py:74-107 | no matching discovered theme gives `get_theme_by_id`; a match mapped to a predefined id gives that table theme exactly when the id is a key (`KeyError` otherwise); an unmapped match gives a definition built from its own id, name and description |
| ThemeConfig.NoDiscoveredFallsBack | src/layer2/theme_config.py:88-107 | when no discovered theme is given the lookup is `get_theme_by_id` |
| ThemeChunker.ThemeIdsOf | src/layer3/theme_chunker.py:15 | one theme id per review, in review order |
| ThemeChunker.SortedCountsFacts | src/layer3/theme_chunker.py:15-16 | the counts sorted by descending count are a permutation of the tally, hold each id once with its number of occurrences, and only ids that occur |
| ThemeChunker.TopOfSorted | src/layer3/theme_chunker.py:13-17 | the returned ids are the first keys of the sorted counts, at most `max_themes` of them and none for a non-positive `max_themes` |
| ThemeChunker.SelectTopBasic | src/layer3/theme_chunker.py:13-17 | at most `max_themes` ids, pairwise distinct, each the theme of some review |
| ThemeChunker.SelectTopOrder | src/layer3/theme_chunker.py:13-17 | the ids come by non-increasing frequency, and ids of equal frequency in the order they first occur |
| ThemeChunker.SelectTopTies | src/layer3/theme_chunker.py:15-16 | ids of equal frequency keep the order of their first occurrence |
| ThemeChunker.TallyNoRepeats | src/layer3/theme_chunker.py:15 | the counter holds each id once |
| ThemeChunker.TieOrder | src/layer3/theme_chunker.py:16 | the stable sort keeps first-occurrence order among equal counts |
| ThemeChunker.SelectTopMaximal | src/layer3/theme_chunker.py:13-17 | no omitted id occurs more often than any returned one |
| ThemeChunker.SelectTopComplete | src/layer3/theme_chunker.py:13-17 | when fewer than `max_themes` ids are returned, every theme id is among them |
| ThemeChunker.OfTheme | src/layer3/theme_chunker.py:20-24 | a theme's group holds only reviews of that theme |
| ThemeChunker.OfThemeCount | src/layer3/theme_chunker.py:20-24 | a theme's group holds as many reviews as the theme occurs |
| ThemeChunker.OfThemeOrder | src/layer3/theme_chunker.py:20-24 | a theme's group is a subsequence of the reviews, so it keeps their order |
| ThemeChunker.GroupReviewsByTheme | src/layer3/theme_chunker.py:20-24 | the loop gives one group per theme that occurs, holding exactly that theme's reviews in input order |
| ThemeChunker.GroupedStep | src/layer3/theme_chunker.py:22-23 | appending a review to its theme's group groups one more review |
| ThemeChunker.GroupSizesTotal | src/layer3/theme_chunker.py:20-24 | the group sizes add up to the number of reviews |
| ThemeChunker.Wrap | src/layer3/theme_chunker.py:41-44 | one chunk per slice, each carrying the theme id, the theme name and that slice |
| ThemeChunker.BuildThemeChunks | src/layer3/theme_chunker.py:27-46 | the loop over the selected ids gives the chunks `BuiltChunks` describes, or the exception it raises |
| ThemeChunker.ThemeSlices | src/layer3/theme_chunker.py:42-44 | the inner loop gives one chunk per `chunk_size` slice of the group, in order |
| ThemeChunker.ErrStays | src/layer3/theme_chunker.py:36-44 | once a selected id raises, the whole call raises the same exception |
| ThemeChunker.ChunksOfThemeFacts | src/layer3/theme_chunker.py:36-44 | with a positive size, a theme with no reviews gives no chunk; each chunk carries the theme id and the name of its first review and holds 1 to `chunk_size` reviews; every chunk but the last is full; and the chunks put back together give the group |
| ThemeChunker.BuiltChunksConcat | src/layer3/theme_chunker.py:36-44 | the chunks of two lists of ids, one after the other, are the chunks of the first list followed by those of the second |
| ThemeChunker.BuiltChunksOk | src/layer3/theme_chunker.py:27-46 | a positive chunk size never raises |
| ThemeChunker.BuiltChunksSingle | src/layer3/theme_chunker.py:36-44 | a single selected id gives its theme's chunks, and none for a theme without reviews |
| ThemeChunker.ChunksOfThemeErr | src/layer3/theme_chunker.py:42 | one theme raises exactly when the step is zero and the theme has reviews |
| ThemeChunker.BuiltChunksErr | src/layer3/theme_chunker.py:27-46 | the call raises exactly when the step is zero and some selected theme has reviews |
| ThemeChunker.BuiltChunksThemes | src/layer3/theme_chunker.py:27-46 | every chunk belongs to a selected theme that has reviews and is nonempty; an unselected theme never gets a chunk |
| TopicSummarizer.KeepFirstPrefix | src/layer3/topic_summarizer.py:121-134 | what is kept from a list is a prefix of what is kept from any extension of it |
| TopicSummarizer.KeepFirstForm | src/layer3/topic_summarizer.py:121-134 | the kept items are normalised, non-blank and have pairwise distinct keys |
| TopicSummarizer.KeepFirstSubsequence | src/layer3/topic_summarizer.py:121-134 | the kept items appear in the normalised input, in the same order |
| TopicSummarizer.KeepFirstComplete | src/layer3/topic_summarizer.py:121-134 | the key of every non-blank normalised input item is among the kept keys |
| TopicSummarizer.KeepFirstFixed | src/layer3/topic_summarizer.py:121-134 | a list already normalised, non-blank and without repeated keys is kept whole |
| TopicSummarizer.TrimmedFacts | src/layer3/topic_summarizer.py:119-134 | the result is stripped, non-blank and distinct ignoring case; it holds at most `max_items` items (one when the bound is below one, since the check follows the append); it keeps input order; and when it is shorter than that bound every non-blank input item is in it ignoring case |
| TopicSummarizer.TrimmedForm | src/layer3/topic_summarizer.py:119-134 | the result is stripped, non-blank, distinct ignoring case, and within the bound |
| TopicSummarizer.TrimmedOrder | src/layer3/topic_summarizer.py:119-134 | the result is a subsequence of the stripped input |
| TopicSummarizer.TrimmedComplete | src/layer3/topic_summarizer.py:119-134 | a result below the bound holds every non-blank input item ignoring case |
| TopicSummarizer.TrimmedIdempotent | src/layer3/topic_summarizer.py:119-134 | trimming a trimmed list changes nothing |
| TopicSummarizer.TrimmedKeeps | src/layer3/topic_summarizer.py:67-72 | extending an insight's trimmed list and trimming again keeps the old list as a prefix: items already kept are never displaced |
| TopicSummarizer.TrimReached | src/layer3/topic_summarizer.py:132-133 | once the bound is reached, the rest of the list changes nothing |
| TopicSummarizer.DedupeAndTrim | src/layer3/topic_summarizer.py:119-134 | the loop with its `seen` set and early `break` computes `Trimmed` |
| TopicSummarizer.DedupeItem | src/layer3/topic_summarizer.py:123-133 | one turn skips a blank or already seen item, or keeps it; reaching the bound gives the final result |
| TopicSummarizer.StrippedListOk | src/layer3/topic_summarizer.py:101-102 | the comprehension fails exactly when a truthy item is not a string |
| TopicSummarizer.StrippedItemsOk | src/layer3/topic_summarizer.py:101-102 | a field value gives its items exactly when it is a string, a dictionary, or a list whose truthy items are strings; a dictionary gives its non-empty keys, stripped, in insertion order |
| TopicSummarizer.StrippedStrings | src/layer3/topic_summarizer.py:101-102 | on a list of strings the comprehension strips every non-empty one, in order |
| TopicSummarizer.MaterialParts | src/layer3/topic_summarizer.py:114 | one "id:stripped text" part per review, in order |
| TopicSummarizer.CacheMaterialInjective | src/layer3/topic_summarizer.py:112-116 | for chunks whose ids and texts hold no separator, equal hashed material means the same theme id and the same review ids and stripped texts in the same order |
| TopicSummarizer.PromptTexts | src/layer3/topic_summarizer.py:79 | one prompt text per review, in order |
| TopicSummarizer.PromptHoldsReviews | src/layer3/topic_summarizer.py:79-84 | the prompt for a chunk contains the prompt text of every review in it |
| TopicSummarizer.ChunkSpecCache | src/layer3/topic_summarizer.py:78-106 | the store is written only with a cache, for a summary with key points or quotes, by `set` under the chunk's key; otherwise the store is unchanged |
| TopicSummarizer.SecondCallHits | src/layer3/topic_summarizer.py:80-83 | after a chunk's summary was cached, summarising the same chunk again returns it from the cache without calling the model or writing |
| TopicSummarizer.FindInsight | src/layer3/topic_summarizer.py:63 | the insight found has the theme id; none found means no insight has it |
| TopicSummarizer.MergeSummary | src/layer3/topic_summarizer.py:63-72 | the loop body creates the theme's insight if needed, extends its lists and trims them, as `Merge` describes |
| TopicSummarizer.SummarizedStep | src/layer3/topic_summarizer.py:59-72 | the run over one more chunk is the run so far followed by one turn |
| TopicSummarizer.RanStep | src/layer3/topic_summarizer.py:59-72 | one turn either continues the run or ends it with the error the whole run gives |
| TopicSummarizer.SummarizedErrStays | src/layer3/topic_summarizer.py:59-72 | an exception stops the run for good |
| TopicSummarizer.AbsorbShape | src/layer3/topic_summarizer.py:66-72 | absorbing a summary leaves an insight's lists deduplicated and within their limits, whatever they held before |
| TopicSummarizer.MergeShape | src/layer3/topic_summarizer.py:63-72 | merging keeps one insight per theme with deduplicated lists within their limits, gives the chunk's theme an insight and adds no other theme |
| TopicSummarizer.MergeThemes | src/layer3/topic_summarizer.py:63-72 | merging a summary adds exactly the chunk's theme to the set of aggregated themes |
| TopicSummarizer.AdvanceShape | src/layer3/topic_summarizer.py:59-72 | one turn keeps that invariant and adds at most the chunk's theme |
| TopicSummarizer.SummarizedShape | src/layer3/topic_summarizer.py:55-76 | after any number of chunks the invariant holds and every insight belongs to the theme of some chunk |
| TopicSummarizer.SummarizedThemes | src/layer3/topic_summarizer.py:55-76 | the aggregated themes are exactly those of the chunks whose turn produced a summary; a chunk whose call raised or whose reply does not decode to a dictionary adds none |
| TopicSummarizer.SummarizedWithoutCache | src/layer3/topic_summarizer.py:53-106 | without a cache, no chunk writes to the store |
| TopicSummarizer.GeminiTopicSummarizer.constructor | src/layer3/topic_summarizer.py:45-53 | the configured limits, the map-stage template, and the cache only when it is enabled |
| TopicSummarizer.GeminiTopicSummarizer.SummarizeChunk | src/layer3/topic_summarizer.py:78-106 | returns what `SummarizeChunkSpec` gives; an exception leaves the cache untouched; otherwise the cache holds the new store, becomes dirty exactly when it was or the call wrote, and nothing is persisted |
| TopicSummarizer.GeminiTopicSummarizer.AdvanceOn | src/layer3/topic_summarizer.py:59-72 | one turn of the loop returns the new insights and leaves the store and the dirty flag `Advance` describes |
| TopicSummarizer.GeminiTopicSummarizer.StepChunk | src/layer3/topic_summarizer.py:59-72 | one turn extends the run by a chunk, or ends it with the error of the whole run; a write is never forgotten |
| TopicSummarizer.GeminiTopicSummarizer.RunChunks | src/layer3/topic_summarizer.py:57-72 | the loop returns the insights `Summarized` describes and leaves the cache store it describes, dirty exactly when it was or a chunk wrote |
| TopicSummarizer.GeminiTopicSummarizer.SummarizeChunks | src/layer3/topic_summarizer.py:55-76 | returns the aggregated insights or the exception; on success the cache holds the final store, is clean, and was persisted when anything had been written since it was last clean |
| TopicSummarizer.GeminiTopicSummarizer.FlushCache | src/layer3/topic_summarizer.py:108-110 | the cache keeps its store, becomes clean, and is written out only when it was dirty |
| SummaryCache.DecodeSummary | src/layer3/cache.py:26-35 | a falsy payload, and only that, gives no summary; a dictionary without an id or a name raises `KeyError`; a payload that is not a dictionary raises `TypeError` |
| SummaryCache.DecodeEncode | src/layer3/cache.py:26-43 | a stored summary reads back as the same four fields |
| SummaryCache.DecodeDefaults | src/layer3/cache.py:33-34 | a payload without the list keys reads them as empty lists |
| SummaryCache.GetAfterSet | src/layer3/cache.py:26-43 | `get` after `set` under the same key returns the summary that was set |
| SummaryCache.SetKeepsOthers | src/layer3/cache.py:37-43 | `set` adds the key and leaves every other key's entry, and what `get` reads under it, as it was |
| SummaryCache.GetMissing | src/layer3/cache.py:26-29 | a missing key reads as no summary |
| SummaryCache.ChunkSummaryCache.constructor | src/layer3/cache.py:20-63 | a missing file, or one that fails to load, gives an empty store; a loaded file gives its contents; the cache starts clean |
| SummaryCache.ChunkSummaryCache.Get | src/layer3/cache.py:26-35 | reads the store without changing it; a missing or falsy entry gives no summary |
| SummaryCache.ChunkSummaryCache.Set | src/layer3/cache.py:37-44 | stores the summary under the key, leaves every other key alone, and marks the cache dirty |
| SummaryCache.ChunkSummaryCache.Persist | src/layer3/cache.py:46-53 | writes the store only when dirty, keeps the store, and leaves the cache clean |
| Layer3Models.ToPromptTextTitle | src/layer3/models.py:24-28 | the prompt text opens with a title line exactly when the review has a title |
| Layer3Models.UntitledPrompt | src/layer3/models.py:26 | a review without a title gives no title line |
| Layer3Models.TitledPrompt | src/layer3/models.py:26 | a review with a title opens with its title line |
| Layer3Models.ToPromptTextRating | src/layer3/models.py:27-28 | the prompt text always holds the rating line |
| Layer3Models.ToPromptTextEnd | src/layer3/models.py:28 | the prompt text ends with the stripped review text |
| Layer3Models.StringsOf | src/layer3/models.py:46-47 | a list of JSON strings gives those strings, one per item; anything else in the list gives none |
| Layer3Models.StringsOfJsonStrings | src/layer3/models.py:46-47 | strings written as JSON strings read back unchanged |
| Layer3Models.InsightDictFacts | src/layer3/models.py:59-65 | the dictionary has exactly the four field keys and gives the insight back |
| Renderers.Section | src/layer3/renderers.py:21-37 | no items give no lines; otherwise the heading, one bullet per item in order, and an empty line |
| Renderers.AppendSection | src/layer3/renderers.py:21-37 | one section's loop appends exactly that section to the lines |
| Renderers.RenderMarkdown | src/layer3/renderers.py:12-39 | the appends build the text `Markdown` describes |
| Renderers.LinesEnds | src/layer3/renderers.py:15-38 | at least four lines: the heading first, the week range second, the word count last |
| Renderers.MarkdownJoined | src/layer3/renderers.py:39 | stripping removes nothing: the text is the lines joined by line feeds plus one line feed, and it ends with "_" and that line feed |
| Renderers.MarkdownOpens | src/layer3/renderers.py:15-16 | the text opens with the heading, the title or "Weekly Product Pulse" when it is empty, and then the week range |
| Renderers.MarkdownCloses | src/layer3/renderers.py:38-39 | the text ends with the word-count line and one line feed |
| Renderers.LinesLayout | src/layer3/renderers.py:14-38 | heading, week range and an empty line; then the overview and an empty line exactly when there is an overview; then the sections; the count line last |
| Renderers.SectionsLayout | src/layer3/renderers.py:21-37 | themes, quotes and actions in that order, each present exactly when it has items, with one bullet per item in order |
| Renderers.BulletsShown | src/layer3/renderers.py:21-37 | every theme, quote and action appears in the text as its bullet |
| Renderers.ShownLine | src/layer3/renderers.py:39 | every collected line appears in the text |
| Renderers.HeadingsPresent | src/layer3/renderers.py:21-37 | each section heading is among the lines exactly when its list has items |
| WeeklyReducer.RunsJoin | src/layer3/weekly_reducer.py:185 | splitting at separators undoes joining non-empty, separator-free parts with one separator |
| WeeklyReducer.WordsOfStripped | src/layer3/weekly_reducer.py:185 | `text.strip().split()` gives the same words as `text.split()` |
| WeeklyReducer.WordsFacts | src/layer3/weekly_reducer.py:185 | the words of a text are non-empty and hold no whitespace, and the words of words joined by spaces are those words again |
| WeeklyReducer.WordsStep | src/layer3/weekly_reducer.py:184-185 | one more string section adds its stripped words to the list |
| WeeklyReducer.CalculateWordCount | src/layer3/weekly_reducer.py:174-186 | the function computes `WordCount`: the sections, then their words, or the exception either step raises |
| WeeklyReducer.DictQuotesWords | src/layer3/weekly_reducer.py:174-186 | a note whose quotes are a dictionary counts the words of its keys |
| WeeklyReducer.DictQuotesSections | src/layer3/weekly_reducer.py:176-181 | a note holding only quotes, as a dictionary, has the empty overview and the dictionary's keys, in insertion order, as its sections |
| WeeklyReducer.CollectSections | src/layer3/weekly_reducer.py:176-181 | the overview, each theme's summary, then the quotes and the actions, or the exception iterating or reading them raises |
| WeeklyReducer.CountSectionWords | src/layer3/weekly_reducer.py:183-186 | the number of stripped words of all sections, or an error when a section is not a string |
| WeeklyReducer.NoteSections | src/layer3/weekly_reducer.py:176-181 | a note dictionary of the requested shape gives its overview, its theme summaries, its quotes and its actions as sections, in that order |
| WeeklyReducer.WordCountOfSections | src/layer3/weekly_reducer.py:183-186 | the count is the words of the overview plus those of the summaries, the quotes and the actions |
| WeeklyReducer.WordCountOnlyOverview | src/layer3/weekly_reducer.py:174-186 | missing sections contribute no words: a note with only an overview counts the overview's words |
| WeeklyReducer.EmptySections | src/layer3/weekly_reducer.py:176-181 | without themes, quotes and actions the overview, or "" when absent, is the only section |
| WeeklyReducer.WordCountEmptyNote | src/layer3/weekly_reducer.py:174-186 | an empty note has no words |
| WeeklyReducer.LinesOfJoin | src/layer3/weekly_reducer.py:159-162 | `splitlines` undoes joining break-free lines with line feeds when the last line is not empty |
| WeeklyReducer.UnfencedOf | src/layer3/weekly_reducer.py:156-162 | dropping the fence lines around break-free, unfenced lines leaves those lines joined and stripped |
| WeeklyReducer.LastIndexOf | src/layer3/weekly_reducer.py:165 | the position of the last occurrence, or none when the character does not occur |
| WeeklyReducer.BraceSlice | src/layer3/weekly_reducer.py:163-167 | a candidate opening with a brace is kept; a cut candidate opens with `{`, closes with `}` and is part of the original |
| WeeklyReducer.BraceSliceOf | src/layer3/weekly_reducer.py:163-167 | text around a braced body, with no `{` before it and no `}` after it, is cut to exactly that body |
| WeeklyReducer.TryParseJson | src/layer3/weekly_reducer.py:152-171 | a blank text gives no value, and a decoded value is never `null` (a decoded `null` counts as none) |
| WeeklyReducer.NonNull | src/layer3/weekly_reducer.py:135 | a decoded value is kept exactly when it is not `null` |
| WeeklyReducer.ParsePlain | src/layer3/weekly_reducer.py:152-171 | a stripped text that opens with a brace is decoded as it is |
| WeeklyReducer.ParseEmbedded | src/layer3/weekly_reducer.py:163-171 | prose around a braced object is cut away before decoding |
| WeeklyReducer.UnfencedFenced | src/layer3/weekly_reducer.py:156-162 | dropping the "```json" and "```" lines of a fenced reply leaves its body, stripped |
| WeeklyReducer.FencedCandidate | src/layer3/weekly_reducer.py:153-167 | the text handed to the decoder for a fenced reply is its body |
| WeeklyReducer.ParseFenced | src/layer3/weekly_reducer.py:152-171 | a reply fenced as a JSON code block is decoded from the lines between the fences |
| WeeklyReducer.CollectPartTexts | src/layer3/weekly_reducer.py:146-149 | the stripped non-blank texts of one candidate's parts, in order |
| WeeklyReducer.IterCandidateTexts | src/layer3/weekly_reducer.py:139-150 | the loop collects the texts `CandidateTexts` describes |
| WeeklyReducer.CandidateTextsFacts | src/layer3/weekly_reducer.py:139-150 | every candidate text is non-blank and stripped and comes from the response text or a part; a non-blank response text comes first; every non-blank part text is among them |
| WeeklyReducer.CandidateTextFrom | src/layer3/weekly_reducer.py:139-150 | a candidate text is the stripped response text or the stripped text of some part |
| WeeklyReducer.PartTextCandidate | src/layer3/weekly_reducer.py:144-149 | every non-blank part text is a candidate text |
| WeeklyReducer.FirstParsedIs | src/layer3/weekly_reducer.py:132-137 | the first candidate text that decodes gives the payload |
| WeeklyReducer.FirstParsedNone | src/layer3/weekly_reducer.py:132-137 | there is no payload exactly when no candidate text decodes |
| WeeklyReducer.ModelPayload | src/layer3/weekly_reducer.py:110-130 | a model call that raises gives no dictionary |
| WeeklyReducer.PayloadOfText | src/layer3/weekly_reducer.py:110-141 | a response whose stripped text is a JSON object gives that object, whatever its candidates hold |
| WeeklyReducer.PayloadNone | src/layer3/weekly_reducer.py:120-126 | a response none of whose texts decodes gives no dictionary |
| WeeklyReducer.PayloadFirstDecoded | src/layer3/weekly_reducer.py:120-130 | the first text that decodes decides: a value that is not a dictionary gives none, even when a later text is one |
| WeeklyReducer.ReducePromptHolds | src/layer3/weekly_reducer.py:20-83 | the reduce prompt holds the week's start, its end and the themes blob |
| WeeklyReducer.CompressPromptHolds | src/layer3/weekly_reducer.py:56-107 | the compress prompt holds the word limit and the note payload |
| WeeklyReducer.Limited | src/layer3/weekly_reducer.py:88-93 | the count of the note used is its own; a first note within the limit is used as it is; a note is replaced only when the first one was over the limit and the model gave a non-empty compressed note, and such a note is then used |
| WeeklyReducer.EntriesOf | src/layer3/weekly_reducer.py:100 | every theme entry comes from the theme in the same position |
| WeeklyReducer.NoteFrom | src/layer3/weekly_reducer.py:95-104 | a title or overview that is not a string raises `AttributeError`; a built note has the requested week, the stripped title and overview, and the given count |
| WeeklyReducer.NoteFromShape | src/layer3/weekly_reducer.py:95-104 | the note's themes, quotes and actions are the dictionary's |
| WeeklyReducer.NoteFromSections | src/layer3/weekly_reducer.py:88-104 | the sections counted in a dictionary are the built note's overview before stripping, its theme summaries, its quotes and its actions |
| WeeklyReducer.CountedWords | src/layer3/weekly_reducer.py:88-99 | the count of a note's sections equals the words the note holds, whether or not its overview was stripped |
| WeeklyReducer.NoteWordCount | src/layer3/weekly_reducer.py:88-104 | a note built with its dictionary's count holds exactly that many words |
| WeeklyReducer.WeeklyNoteShape | src/layer3/weekly_reducer.py:76-104 | a note returned covers the requested week, has a stripped title and overview, and its word count is the number of words it holds |
| WeeklyReducer.WeeklyNoteLimit | src/layer3/weekly_reducer.py:84-104 | no dictionary or an empty one gives no note; a first note within the limit is used without compressing; a note over the limit is returned only when the first one was over it too |
| WeeklyReducer.GeminiWeeklyReducer.constructor | src/layer3/weekly_reducer.py:68-74 | the configured word limit, the reducer's templates and the services it calls |
| WeeklyReducer.GeminiWeeklyReducer.ExtractJsonPayload | src/layer3/weekly_reducer.py:132-137 | the loop returns the first decoded candidate text, as `FirstParsed` describes |
| WeeklyReducer.GeminiWeeklyReducer.InvokeModel | src/layer3/weekly_reducer.py:110-130 | the dictionary `ModelPayload` describes, or none |
| WeeklyReducer.GeminiWeeklyReducer.CompressNote | src/layer3/weekly_reducer.py:106-108 | the model's answer to the compress prompt for the note |
| WeeklyReducer.GeminiWeeklyReducer.LimitWords | src/layer3/weekly_reducer.py:88-93 | the word-limit step gives the note and count `Limited` describes |
| WeeklyReducer.GeminiWeeklyReducer.BuildWeeklyNote | src/layer3/weekly_reducer.py:76-104 | the whole of `build_weekly_note` returns the note `WeeklyNote` describes |
| Common.Strip | src/layer3/topic_summarizer.py:124 | `strip()` never lengthens a string and leaves no whitespace at either end |
| Common.StripIdempotent | src/layer3/topic_summarizer.py:124 | stripping twice is stripping once |
| Common.StripEmptyIffBlank | src/layer3/topic_summarizer.py:124-126 | a string strips to empty exactly when it is all whitespace |
| Common.StripSurrounded | src/layer2/theme_classifier.py:165 | stripping removes exactly the whitespace around a stripped text |
| Common.TrimSurrounded | src/layer2/theme_classifier.py:163 | `strip("`")` removes exactly the backticks around a text that neither starts nor ends with one |
| Common.SplitJoin | src/layer2/theme_config.py:71 | splitting at a character undoes joining with it when no part holds it |
| Common.ChunksFlatten | src/layer2/theme_classifier.py:111-114 | the batches, put back together, give the input |
| Common.ChunksSizes | src/layer2/theme_classifier.py:111-114 | every batch holds 1 to `batch_size` items, and all but the last are full |
| Counting.IncrementFacts | src/layer2/weekly_aggregator.py:84-85 | `counts[k] += 1` adds one to that key's count, leaves every other count alone and keeps the keys distinct |
| Counting.TallyFacts | src/layer3/theme_chunker.py:15 | the counter holds each key once, with its number of occurrences, only keys that occur, and counts summing to the number of keys |
| Counting.TallyOrder | src/layer3/theme_chunker.py:15 | the counter lists its keys in the order they first occur |
| Sorting.SortByFacts | src/layer2/weekly_aggregator.py:99 | `sorted` by a numeric key returns a sorted permutation that keeps the input order among equal keys |
| Sorting.StableTies | src/layer3/theme_chunker.py:16 | two elements with the same key come in the order they had in the input |
| Sorting.SortByStringFacts | src/layer2/weekly_aggregator.py:55-77 | `sorted` by a string key returns a permutation sorted by code point |

## Left out

- Generative-model calls and client setup are parameters of the model. A
  model is a deterministic function from prompt (and attempt) to an answer
  or a raised call. This covers `generate_content` in every layer, the model
  selection in `GeminiThemeClassifier.__init__`, the `GEMINI_API_KEY`
  lookup and its `RuntimeError`, and `os.getenv`.
- A response's `getattr` defaults are collapsed into the response's text
  and candidate fields.
- `json.loads` and `json.dumps` are parameters: a parser that returns no
  value where `json.loads` raises, and an abstract printer.
- Regular expressions, Presidio and HTML parsing are not modelled. Their
  matches are inputs to redaction.
- HDBSCAN and SentenceTransformer are black boxes. Their labels,
  membership probabilities and vectors are inputs.
- Floating point is not modelled: values are exact `real`s.
- Time zones are not modelled. A date is a count of seconds, so the model
  does not tell naive datetimes from offset-aware ones, which
  `_parse_date` in src/layer1/validator.py:42-52 both accepts. Nor does it
  produce the `TypeError` that `_days_between` raises when subtracting one
  kind from the other.
- There is no square root. The Euclidean norm used by cosine similarity is
  a parameter.
- SHA-256 and `fuzz.token_set_ratio` are parameters.
- Calendar parsing and formatting (`strptime`, `strftime`) and the Monday
  computation of `_week_key_from_date` form a calendar parameter.
- `str.isspace`, `str.strip` and `str.lower` are modelled on ASCII text
  only. There is no Unicode whitespace and no Unicode case folding.
- File I/O is represented by what reading gives and what was last written.
  The contents of `EmbeddingCache.flush/_load`, `ChunkSummaryCache.persist/_load`,
  `_load_weekly_file`, `save_aggregation` and `dump_validated_reviews` are
  not modelled, and neither are paths, directories or encodings.
- Logging is not modelled.
- WeeklyReducer.GeminiWeeklyReducer.CompressNote: `json.dumps` of the note is a printer
  of the note's entries. The order of the note's top-level keys, which
  `json.dumps` follows, is not part of its input.
- Pydantic is not modelled beyond the stated field constraints and the
  normalising validators.
- Concurrency and the cache state left behind by an exception in the
  middle of a call are not modelled.
- SummaryCache.DecodeSummary: a stored payload whose fields are not
  strings, or lists of strings, is reported as `Err("field type")`. The
  source's plain dataclass would accept such values as they are.
- WeeklyReducer.NoteFrom: themes, quotes or actions of a shape other than
  the note's fields give `Err("field type")`. The source's plain dataclass
  would store them as they are.
- ThemeLimiter.Enforce: requires every cluster to have members and every
  centroid to have one dimension. `_build_summaries` guarantees both.
  Merging two clusters with no members would divide by zero, and centroids
  of different lengths make the vector arithmetic raise.
- ThemeLimiter.FindMostSimilarPair: requires centroids of one dimension,
  for the same reason.
- Clustering.Cluster: requires one label, one vector and (when given) one
  probability per review. The clusterer returns exactly that.
- The theme table in src/layer2/theme_config.py holds six themes, although
  the comment above it says five. The model follows the table.

## Findings

| source | as written | input that shows it | evidently intended | confidence | as-written member | corrected member |
|---|---|---|---|---|---|---|
| src/layer1/deduplicator.py:85-86 | `abs((left - right).days)` floors the signed difference before taking its absolute value, so the day distance is not symmetric | two dates one second apart give 0 days one way and 1 day the other | the whole days between the two dates, the same in both directions | not executed | Deduplicator.DaysBetweenAsWrittenAsymmetric | Deduplicator.DaysBetweenFacts |
| src/layer2/theme_classifier.py:225-238 | an empty (or missing) theme id is a substring of the first fixed id, so the fuzzy match returns `glitches` | `""` | an empty theme id falls back to the default `ui_ux` | not executed | ThemeClassifier.EmptyThemeIdAsWritten | ThemeClassifier.ValidatedThemeIdCases |
| src/layer2/theme_classifier.py:161-166 | after removing the fence and the `json` tag, the first line is dropped whenever the payload has a newline, so a multi-line JSON reply loses its opening line | a reply of "```json", then "[", then "1]", then "```", reaches the decoder as `1]` | only the fence and its language tag are removed | not executed | ThemeClassifier.FencedMultiLineAsWritten | ThemeClassifier.FencedPayload |
