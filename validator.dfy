/** Schema validation of scraped reviews (src/layer1/validator.py): the
    field constraints of `ReviewModel`, its normalising validators and the
    counting loop of `validate_reviews`. Dates are seconds since an epoch;
    `datetime.fromisoformat` is the parameter `parseIso`. */
module Validator {
  import opened Common

  /** What a record may carry in its `date` field: a `datetime`, a string,
      or a value of some other type. */
  datatype DateInput = DateTime(seconds: int) | Text(s: string) | Unsupported

  /** A scraped review as handed to the validator. */
  datatype ReviewRecord = ReviewRecord(reviewId: string, title: Option<string>, text: string, rating: int,
                                       date: DateInput, author: Option<string>, productTag: Option<string>)

  /** A review that passed validation. */
  datatype ReviewModel = ReviewModel(reviewId: string, title: string, text: string, rating: int,
                                     date: int, author: Option<string>, productTag: Option<string>)

  datatype ValidationSummary = ValidationSummary(total: nat, accepted: nat, rejected: nat)

  /** The constraints every `ReviewModel` satisfies: a non-empty id, a
      non-empty stripped text, a stripped title and a rating in 1..5. */
  predicate Valid(m: ReviewModel)
  {
    && |m.reviewId| >= 1
    && m.text != [] && IsStripped(m.text)
    && IsStripped(m.title)
    && 1 <= m.rating <= 5
  }

  /** `_ensure_str`: `None` becomes "", anything else is stripped. */
  function EnsureStr(v: Option<string>): (r: string)
    ensures IsStripped(r)
    ensures v.None? ==> r == ""
    ensures v.Some? ==> |r| <= |v.value|
  {
    if v.None? then "" else Strip(v.value)
  }

  /** `_ensure_str` leaves its own output unchanged. */
  lemma EnsureStrIdempotent(v: Option<string>)
    ensures EnsureStr(Some(EnsureStr(v))) == EnsureStr(v)
  {
    StripOfStripped(EnsureStr(v));
  }

  /** `value.replace("Z", "+00:00")` */
  function ReplaceZ(s: string): (r: string)
    ensures 'Z' !in r
    ensures 'Z' !in s ==> r == s
    ensures |r| >= |s|
  {
    if s == [] then []
    else (if s[0] == 'Z' then "+00:00" else [s[0]]) + ReplaceZ(s[1..])
  }

  /** `_parse_date`: a `datetime` is kept, a string is read as ISO 8601
      with a trailing "Z" meaning UTC, any other type is rejected. */
  function ParseDate(v: DateInput, parseIso: string -> Option<int>): (r: Result<int>)
    ensures v.DateTime? ==> r == Ok(v.seconds)
    ensures v.Text? ==> (r.Ok? <==> parseIso(ReplaceZ(v.s)).Some?)
    ensures v.Text? && r.Ok? ==> r.value == parseIso(ReplaceZ(v.s)).value
    ensures v.Unsupported? ==> r.Err?
  {
    match v
    case DateTime(seconds) => Ok(seconds)
    case Text(s) =>
      var d := parseIso(ReplaceZ(s));
      if d.Some? then Ok(d.value) else Err("ValueError: Invalid datetime string")
    case Unsupported => Err("ValueError: Unsupported date format")
  }

  /** The title handed to the model: `record.title or record.text[:60]`. */
  function TitleInput(rec: ReviewRecord): Option<string>
  {
    if rec.title.None? || rec.title.value == "" then Some(Take(rec.text, 60)) else rec.title
  }

  /** `ReviewModel(...)` built from a record in `validate_reviews`: a model
      exactly when every field constraint holds, a `ValidationError`
      otherwise. */
  function MakeModel(rec: ReviewRecord, parseIso: string -> Option<int>): (r: Result<ReviewModel>)
    ensures r.Ok? <==> && rec.reviewId != []
                       && Strip(rec.text) != []
                       && 1 <= rec.rating <= 5
                       && ParseDate(rec.date, parseIso).Ok?
    ensures r.Ok? ==> Valid(r.value)
    ensures r.Ok? ==> && r.value.reviewId == rec.reviewId
                      && r.value.text == Strip(rec.text)
                      && r.value.rating == rec.rating
                      && r.value.date == ParseDate(rec.date, parseIso).value
                      && r.value.author == rec.author && r.value.productTag == rec.productTag
    ensures r.Ok? && (rec.title.None? || rec.title.value == "") ==> r.value.title == Strip(Take(rec.text, 60))
    ensures r.Ok? && rec.title.Some? && rec.title.value != "" ==> r.value.title == Strip(rec.title.value)
  {
    var title := EnsureStr(TitleInput(rec));
    var text := EnsureStr(Some(rec.text));
    var date := ParseDate(rec.date, parseIso);
    if |rec.reviewId| < 1 || text == [] || !(1 <= rec.rating <= 5) || date.Err? then
      Err("ValidationError")
    else
      Ok(ReviewModel(rec.reviewId, title, text, rec.rating, date.value, rec.author, rec.productTag))
  }

  /** The successful results of `g` over `xs`, in order. */
  function Successes<A, B>(xs: seq<A>, g: A -> Result<B>): (r: seq<B>)
    ensures |r| <= |xs|
    decreases |xs|
  {
    if xs == [] then []
    else
      var rest := Successes(xs[..|xs| - 1], g);
      var m := g(xs[|xs| - 1]);
      if m.Ok? then rest + [m.value] else rest
  }

  /** One more element adds its success, if any. */
  lemma SuccessesStep<A, B>(xs: seq<A>, k: nat, g: A -> Result<B>)
    requires k < |xs|
    ensures Successes(xs[..k + 1], g) == Successes(xs[..k], g) + (if g(xs[k]).Ok? then [g(xs[k]).value] else [])
  {
    assert xs[..k + 1][..k] == xs[..k];
  }

  /** `f` lists, increasing, the positions where `g` succeeded, and those
      successes are the result; `g` failed at every other position. */
  lemma {:induction false} SuccessPositions<A, B>(xs: seq<A>, g: A -> Result<B>) returns (f: seq<nat>)
    ensures |f| == |Successes(xs, g)|
    ensures forall t | 0 <= t < |f| :: f[t] < |xs| && g(xs[f[t]]) == Ok(Successes(xs, g)[t])
    ensures forall t, u | 0 <= t < u < |f| :: f[t] < f[u]
    ensures forall i | 0 <= i < |xs| && i !in f :: g(xs[i]).Err?
    decreases |xs|
  {
    if xs == [] {
      f := [];
    } else {
      var n := |xs| - 1;
      var init := xs[..n];
      var h := SuccessPositions(init, g);
      assert forall i | 0 <= i < n :: init[i] == xs[i];
      if g(xs[n]).Ok? {
        f := h + [n];
        assert Successes(xs, g) == Successes(init, g) + [g(xs[n]).value];
        forall i | 0 <= i < |xs| && i !in f
          ensures g(xs[i]).Err?
        {
          assert i != n && i !in h;
        }
      } else {
        f := h;
        assert Successes(xs, g) == Successes(init, g);
      }
    }
  }

  /** The models of the records that validate, in input order. */
  function Validated(records: seq<ReviewRecord>, parseIso: string -> Option<int>): (r: seq<ReviewModel>)
    ensures |r| <= |records|
  {
    Successes(records, rec => MakeModel(rec, parseIso))
  }

  /** `validate_reviews`: the accepted models in input order and the counts. */
  method ValidateReviews(records: seq<ReviewRecord>, parseIso: string -> Option<int>)
    returns (validated: seq<ReviewModel>, summary: ValidationSummary)
    ensures validated == Validated(records, parseIso)
    ensures summary.total == |records| == summary.accepted + summary.rejected
    ensures summary.accepted == |validated|
  {
    var rejected;
    validated, rejected := CountSuccesses(records, rec => MakeModel(rec, parseIso));
    summary := ValidationSummary(rejected + |validated|, |validated|, rejected);
  }

  /** The loop of `validate_reviews`, for any way `g` of building a model:
      each success is kept in order and each failure counted. */
  method CountSuccesses<A, B>(xs: seq<A>, g: A -> Result<B>) returns (oks: seq<B>, rejected: nat)
    ensures oks == Successes(xs, g)
    ensures rejected + |oks| == |xs|
  {
    oks := [];
    rejected := 0;
    for k := 0 to |xs|
      invariant oks == Successes(xs[..k], g)
      invariant rejected + |oks| == k
    {
      SuccessesStep(xs, k, g);
      var model := g(xs[k]);
      if model.Ok? {
        oks := oks + [model.value];
      } else {
        rejected := rejected + 1;
      }
    }
    assert xs[..|xs|] == xs;
  }

  /** Every validated review satisfies the field constraints. */
  lemma ValidatedValid(records: seq<ReviewRecord>, parseIso: string -> Option<int>)
    ensures forall t | 0 <= t < |Validated(records, parseIso)| :: Valid(Validated(records, parseIso)[t])
  {
    var f := ValidatedPositions(records, parseIso);
  }

  /** The validated reviews are the models of the accepted records, in
      their input order: `f` lists the accepted positions, increasing, and
      every position not in `f` was rejected. */
  lemma ValidatedPositions(records: seq<ReviewRecord>, parseIso: string -> Option<int>)
    returns (f: seq<nat>)
    ensures |f| == |Validated(records, parseIso)|
    ensures forall t | 0 <= t < |f| :: f[t] < |records| && MakeModel(records[f[t]], parseIso) == Ok(Validated(records, parseIso)[t])
    ensures forall t, u | 0 <= t < u < |f| :: f[t] < f[u]
    ensures forall i | 0 <= i < |records| && i !in f :: MakeModel(records[i], parseIso).Err?
  {
    f := SuccessPositions(records, rec => MakeModel(rec, parseIso));
  }
}
