/** Span-based PII redaction (src/layer1/pii_detector.py). The regular
    expressions and the optional Presidio analyser are not modelled: their
    matches are inputs, one sequence per pattern in pattern order. */
module PiiDetector {
  import opened Common
  import opened Sorting

  /** A detected span `text[start:stop]` and its label (`tag`). Offsets from a
      regular-expression match or an analyser entity are never negative. */
  datatype PiiFinding = PiiFinding(text: string, start: nat, stop: nat, tag: string)

  /** An entity reported by the Presidio analyser. */
  datatype PresidioEntity = PresidioEntity(start: nat, stop: nat, entityType: string)

  /** The matches of the email, phone and URL patterns, each in match order. */
  datatype RegexMatches = RegexMatches(email: seq<PiiFinding>, phone: seq<PiiFinding>, url: seq<PiiFinding>)

  const DefaultMask := "[REDACTED]"

  function StartOf(f: PiiFinding): int
  {
    f.start
  }

  /** `_detect_with_regex` followed by the analyser's entities, if the
      analyser is enabled. */
  function Unsorted(text: string, matches: RegexMatches, presidio: Option<seq<PresidioEntity>>): (r: seq<PiiFinding>)
    ensures presidio.None? ==> r == matches.email + matches.phone + matches.url
    ensures presidio.Some? ==> |r| == |matches.email| + |matches.phone| + |matches.url| + |presidio.value|
  {
    var regex := matches.email + matches.phone + matches.url;
    if presidio.None? then regex
    else
      var entities := presidio.value;
      regex + seq(|entities|, i requires 0 <= i < |entities| =>
                    PiiFinding(Slice(text, entities[i].start, entities[i].stop), entities[i].start, entities[i].stop,
                               entities[i].entityType))
  }

  /** `detect`: all findings, stably sorted by start offset. */
  function Detect(text: string, matches: RegexMatches, presidio: Option<seq<PresidioEntity>>): (r: seq<PiiFinding>)
    ensures |r| == |Unsorted(text, matches, presidio)|
  {
    SortBy(Unsorted(text, matches, presidio), StartOf)
  }

  /** `detect` returns every finding exactly once, ordered by start; the
      findings that share a start keep their detection order (email before
      phone before URL before analyser entities). */
  lemma DetectFacts(text: string, matches: RegexMatches, presidio: Option<seq<PresidioEntity>>)
    ensures SortedBy(Detect(text, matches, presidio), StartOf)
    ensures multiset(Detect(text, matches, presidio)) == multiset(Unsorted(text, matches, presidio))
    ensures forall v :: WithKey(Detect(text, matches, presidio), StartOf, v)
                        == WithKey(Unsorted(text, matches, presidio), StartOf, v)
  {
    SortByFacts(Unsorted(text, matches, presidio), StartOf);
  }

  /** The pieces `redact` joins, from `cursor` on: for each finding in turn,
      one that starts before the cursor is skipped, otherwise the text from
      the cursor to its start and its replacement are emitted and the
      cursor moves to its end; the rest of the text comes last. `redact`
      replaces every span by the same mask; other replacements are used
      only to state what the output keeps of the text. */
  function Splice(text: string, fs: seq<PiiFinding>, replace: PiiFinding -> string, cursor: nat): seq<string>
    decreases |fs|
  {
    if fs == [] then [Slice(text, cursor, |text|)]
    else if fs[0].start < cursor then Splice(text, fs[1..], replace, cursor)
    else [Slice(text, cursor, fs[0].start), replace(fs[0])] + Splice(text, fs[1..], replace, fs[0].stop)
  }

  function Masking(mask: string): PiiFinding -> string
  {
    (f: PiiFinding) => mask
  }

  function Original(text: string): PiiFinding -> string
  {
    (f: PiiFinding) => Slice(text, f.start, f.stop)
  }

  /** The findings `redact` masks, starting from `cursor`. */
  function Accepted(fs: seq<PiiFinding>, cursor: nat): seq<PiiFinding>
    decreases |fs|
  {
    if fs == [] then []
    else if fs[0].start < cursor then Accepted(fs[1..], cursor)
    else [fs[0]] + Accepted(fs[1..], fs[0].stop)
  }

  /** The text `redact` returns for the sorted findings `fs`. */
  function Redacted(text: string, fs: seq<PiiFinding>, mask: string): (r: string)
    ensures fs == [] ==> r == text
  {
    if fs == [] then text else Flatten(Splice(text, fs, Masking(mask), 0))
  }

  /** `PIIDetector.redact` */
  method Redact(text: string, matches: RegexMatches, presidio: Option<seq<PresidioEntity>>, mask: string)
    returns (r: string)
    ensures r == Redacted(text, Detect(text, matches, presidio), mask)
  {
    var findings := Detect(text, matches, presidio);
    r := RedactFindings(text, findings, mask);
  }

  /** The loop of `redact` over the sorted findings. */
  method RedactFindings(text: string, findings: seq<PiiFinding>, mask: string) returns (r: string)
    ensures r == Redacted(text, findings, mask)
  {
    if findings == [] {
      return text;
    }
    var redacted: seq<string> := [];
    var cursor: nat := 0;
    for k := 0 to |findings|
      invariant redacted + Splice(text, findings[k..], Masking(mask), cursor)
                == Splice(text, findings, Masking(mask), 0)
    {
      var finding := findings[k];
      SpliceStep(text, findings, k, Masking(mask), cursor);
      if finding.start < cursor {
        continue;
      }
      redacted := redacted + [Slice(text, cursor, finding.start), mask];
      cursor := finding.stop;
    }
    redacted := redacted + [Slice(text, cursor, |text|)];
    r := Flatten(redacted);
  }

  /** `Splice` from the `k`-th finding on, one finding at a time. */
  lemma SpliceStep(text: string, fs: seq<PiiFinding>, k: nat, replace: PiiFinding -> string, cursor: nat)
    requires k < |fs|
    ensures Splice(text, fs[k..], replace, cursor) ==
            if fs[k].start < cursor then Splice(text, fs[k + 1..], replace, cursor)
            else [Slice(text, cursor, fs[k].start), replace(fs[k])] + Splice(text, fs[k + 1..], replace, fs[k].stop)
  {
    assert fs[k..][1..] == fs[k + 1..];
  }

  /** `clean_reviews_texts`: one redacted text per input, in order, with
      the default mask. `scan` stands for the three patterns and
      `analyse`, when present, for the analyser. */
  method CleanReviewsTexts(texts: seq<string>, scan: string -> RegexMatches,
                           analyse: Option<string -> seq<PresidioEntity>>)
    returns (cleaned: seq<string>)
    ensures |cleaned| == |texts|
    ensures forall i | 0 <= i < |texts| :: cleaned[i] == Cleaned(texts[i], scan, analyse)
  {
    cleaned := [];
    ghost var f := t => Cleaned(t, scan, analyse);
    for k := 0 to |texts|
      invariant MappedUpTo(cleaned, texts, k, f)
    {
      var r := CleanText(texts[k], scan, analyse);
      MappedStep(cleaned, texts, k, f, r);
      cleaned := cleaned + [r];
    }
  }

  /** The first `k` outputs are `f` of the first `k` inputs. */
  ghost predicate MappedUpTo<A, B>(out: seq<B>, xs: seq<A>, k: nat, f: A -> B)
  {
    && k <= |xs| && |out| == k
    && forall i | 0 <= i < k :: out[i] == f(xs[i])
  }

  lemma MappedStep<A, B>(out: seq<B>, xs: seq<A>, k: nat, f: A -> B, y: B)
    requires MappedUpTo(out, xs, k, f) && k < |xs| && y == f(xs[k])
    ensures MappedUpTo(out + [y], xs, k + 1, f)
  {
  }

  /** The body of the loop of `clean_reviews_texts`. */
  method CleanText(text: string, scan: string -> RegexMatches, analyse: Option<string -> seq<PresidioEntity>>)
    returns (r: string)
    ensures r == Cleaned(text, scan, analyse)
  {
    var presidio := if analyse.Some? then Some(analyse.value(text)) else None;
    r := Redact(text, scan(text), presidio, DefaultMask);
  }

  /** One text of `clean_reviews_texts`: its findings, from the patterns and
      the analyser when there is one, masked with the default mask. */
  function Cleaned(text: string, scan: string -> RegexMatches, analyse: Option<string -> seq<PresidioEntity>>): string
  {
    var presidio := if analyse.Some? then Some(analyse.value(text)) else None;
    Redacted(text, Detect(text, scan(text), presidio), DefaultMask)
  }


  /** Every span lies inside the text, start before end, as regular
      expression matches do. */
  predicate InBounds(text: string, fs: seq<PiiFinding>)
  {
    forall i | 0 <= i < |fs| :: fs[i].start <= fs[i].stop <= |text|
  }

  /** Each span ends no later than the next one starts. */
  predicate Disjoint(fs: seq<PiiFinding>)
  {
    forall i | 0 <= i < |fs| - 1 :: fs[i].stop <= fs[i + 1].start
  }

  /** Total length of the spans. */
  function SpanLength(fs: seq<PiiFinding>): int
    decreases |fs|
  {
    if fs == [] then 0 else fs[0].stop - fs[0].start + SpanLength(fs[1..])
  }

  lemma FlattenPair(a: string, b: string, rest: seq<string>)
    ensures Flatten([a, b] + rest) == a + b + Flatten(rest)
  {
    FlattenConcat([a, b], rest);
    assert [a, b][1..] == [b];
    assert [b][1..] == [];
  }

  lemma FlattenSingle(a: string)
    ensures Flatten([a]) == a
  {
    assert [a][1..] == [];
  }

  /** Between masks the text is copied verbatim: putting each masked span
      back in place of its mask restores the text. */
  lemma {:induction false} SpliceRestores(text: string, fs: seq<PiiFinding>, cursor: nat)
    requires InBounds(text, fs) && cursor <= |text|
    ensures Flatten(Splice(text, fs, Original(text), cursor)) == text[cursor..]
    decreases |fs|
  {
    if fs == [] {
      FlattenSingle(text[cursor..]);
    } else {
      assert InBounds(text, fs[1..]) by {
        forall i | 0 <= i < |fs[1..]| ensures fs[1..][i].start <= fs[1..][i].stop <= |text| {
          assert fs[1..][i] == fs[i + 1];
        }
      }
      if fs[0].start >= cursor {
        var f := fs[0];
        SpliceRestores(text, fs[1..], f.stop);
        FlattenPair(text[cursor..f.start], text[f.start..f.stop], Splice(text, fs[1..], Original(text), f.stop));
        assert text[cursor..f.start] + text[f.start..f.stop] + text[f.stop..] == text[cursor..];
      } else {
        SpliceRestores(text, fs[1..], cursor);
      }
    }
  }

  lemma MaskCount(n: nat, m: nat)
    ensures (n + 1) * m == n * m + m
  {
  }

  /** The output length is the text's length, less the masked spans, plus
      one mask per masked span. */
  lemma {:induction false} SpliceLength(text: string, fs: seq<PiiFinding>, mask: string, cursor: nat)
    requires InBounds(text, fs) && cursor <= |text|
    ensures |Flatten(Splice(text, fs, Masking(mask), cursor))|
            == |text| - cursor - SpanLength(Accepted(fs, cursor)) + |Accepted(fs, cursor)| * |mask|
    decreases |fs|
  {
    if fs == [] {
      FlattenSingle(text[cursor..]);
    } else {
      assert InBounds(text, fs[1..]) by {
        forall i | 0 <= i < |fs[1..]| ensures fs[1..][i].start <= fs[1..][i].stop <= |text| {
          assert fs[1..][i] == fs[i + 1];
        }
      }
      if fs[0].start >= cursor {
        var f := fs[0];
        SpliceLength(text, fs[1..], mask, f.stop);
        var rest := Splice(text, fs[1..], Masking(mask), f.stop);
        FlattenPair(text[cursor..f.start], mask, rest);
        assert Splice(text, fs, Masking(mask), cursor) == [text[cursor..f.start], mask] + rest;
        var acc, tail := Accepted(fs, cursor), Accepted(fs[1..], f.stop);
        assert acc == [f] + tail;
        assert acc[1..] == tail;
        assert SpanLength(acc) == f.stop - f.start + SpanLength(tail);
        MaskCount(|tail|, |mask|);
      } else {
        SpliceLength(text, fs[1..], mask, cursor);
      }
    }
  }

  /** Masked spans never overlap: each starts at or after the end of the
      one masked before it. */
  lemma {:induction false} AcceptedDisjoint(fs: seq<PiiFinding>, cursor: nat)
    requires forall i | 0 <= i < |fs| :: fs[i].start <= fs[i].stop
    ensures Disjoint(Accepted(fs, cursor))
    ensures forall i | 0 <= i < |Accepted(fs, cursor)| :: Accepted(fs, cursor)[i].start >= cursor
    decreases |fs|
  {
    if fs != [] {
      assert forall i | 0 <= i < |fs[1..]| :: fs[1..][i] == fs[i + 1];
      if fs[0].start < cursor {
        AcceptedDisjoint(fs[1..], cursor);
      } else {
        AcceptedDisjoint(fs[1..], fs[0].stop);
        var rest := Accepted(fs[1..], fs[0].stop);
        assert Accepted(fs, cursor) == [fs[0]] + rest;
      }
    }
  }

  /** Findings that are already sorted and disjoint are all masked. */
  lemma {:induction false} AcceptedAll(fs: seq<PiiFinding>, cursor: nat)
    requires Disjoint(fs)
    requires fs != [] ==> cursor <= fs[0].start
    ensures Accepted(fs, cursor) == fs
    decreases |fs|
  {
    if fs != [] {
      assert Disjoint(fs[1..]) by {
        forall i | 0 <= i < |fs[1..]| - 1 ensures fs[1..][i].stop <= fs[1..][i + 1].start {
          assert fs[1..][i] == fs[i + 1] && fs[1..][i + 1] == fs[i + 2];
        }
      }
      if |fs| > 1 {
        assert fs[1..][0] == fs[1];
      }
      AcceptedAll(fs[1..], fs[0].stop);
      assert [fs[0]] + fs[1..] == fs;
    }
  }

  /** For disjoint in-bounds findings the redacted length is
      `len(text) - sum(end - start) + k * len(mask)`. */
  lemma RedactedLength(text: string, fs: seq<PiiFinding>, mask: string)
    requires InBounds(text, fs) && Disjoint(fs)
    ensures |Redacted(text, fs, mask)| == |text| - SpanLength(fs) + |fs| * |mask|
  {
    if fs != [] {
      SpliceLength(text, fs, mask, 0);
      AcceptedAll(fs, 0);
    }
  }

  /** `redact` only ever replaces spans: with every span put back the
      text is unchanged. */
  lemma RedactedRestores(text: string, fs: seq<PiiFinding>)
    requires InBounds(text, fs)
    ensures Flatten(Splice(text, fs, Original(text), 0)) == text
  {
    SpliceRestores(text, fs, 0);
  }
}
