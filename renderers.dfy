/** The Markdown rendering of a weekly note (src/layer3/renderers.py). */
module Renderers {
  import opened Common
  import opened Layer3Models

  // ---------------------------------------------------------------------
  // The lines of the note

  /** The title shown for a note without one. */
  const DefaultTitle := "Weekly Product Pulse"

  /** The heading, with a default for an empty title. */
  function TitleLine(title: string): string
  {
    "# " + (if title == "" then DefaultTitle else title)
  }

  function WeekLine(weekStart: string, weekEnd: string): string
  {
    "_Week: " + weekStart + " - " + weekEnd + "_"
  }

  /** The name a theme is shown under, `Theme` when it has none. */
  function ThemeName(theme: ThemeEntry): string
  {
    if theme.name.Some? then theme.name.value else "Theme"
  }

  function ThemeBullet(theme: ThemeEntry): string
  {
    "- **" + ThemeName(theme) + "** - " + Strip(SummaryText(theme))
  }

  function QuoteBullet(quote: string): string
  {
    "- \"" + quote + "\""
  }

  function ActionBullet(action: string): string
  {
    "- " + action
  }

  function CountLine(wordCount: nat): string
  {
    "_Word count: " + NatToString(wordCount) + "_"
  }

  /** A loop that appends `f` of each item in turn keeps its result the
      map of the items seen. */
  lemma MapAccumulate<T, U>(pre: seq<U>, acc: seq<U>, xs: seq<T>, k: nat, f: T -> U)
    requires k < |xs| && acc == pre + Map(xs[..k], f)
    ensures acc + [f(xs[k])] == pre + Map(xs[..k + 1], f)
  {
    assert Map(xs[..k + 1], f) == Map(xs[..k], f) + [f(xs[k])];
  }

  /** A section: nothing for no items, otherwise its heading, one bullet
      per item and an empty line. */
  function Section<T>(heading: string, items: seq<T>, bullet: T -> string): (r: seq<string>)
    ensures items == [] ==> r == []
    ensures items != [] ==> |r| == |items| + 2 && r[0] == heading && r[|r| - 1] == ""
    ensures forall i | 0 <= i < |items| :: r[i + 1] == bullet(items[i])
  {
    if items == [] then [] else [heading] + Map(items, bullet) + [""]
  }

  lemma SectionOf<T>(lines: seq<string>, heading: string, items: seq<T>, bullet: T -> string)
    requires items != []
    ensures lines + [heading] + Map(items, bullet) + [""] == lines + Section(heading, items, bullet)
  {
  }

  /** The lines before the sections: heading, week, an empty line and
      the overview paragraph when there is one. */
  function Opening(note: WeeklyPulseNote): seq<string>
  {
    [TitleLine(note.title), WeekLine(note.weekStart, note.weekEnd), ""]
    + (if note.overview != "" then [note.overview, ""] else [])
  }

  /** The three sections, in order. */
  function Sections(note: WeeklyPulseNote): seq<string>
  {
    Section("## Themes", note.themes, ThemeBullet) + Section("## Quotes", note.quotes, QuoteBullet)
    + Section("## Actions", note.actions, ActionBullet)
  }

  /** The lines `render_markdown` collects. */
  function Lines(note: WeeklyPulseNote): seq<string>
  {
    Opening(note) + Sections(note) + [CountLine(note.wordCount)]
  }

  /** `render_markdown`: the lines joined by line feeds, stripped, and one
      line feed added. */
  function Markdown(note: WeeklyPulseNote): string
  {
    Strip(Join("\n", Lines(note))) + "\n"
  }

  // ---------------------------------------------------------------------
  // Rendering

  /** One loop of `render_markdown`: the heading, then a bullet per item,
      then an empty line, all only when there are items. */
  method AppendSection<T>(lines: seq<string>, heading: string, items: seq<T>, bullet: T -> string)
    returns (r: seq<string>)
    ensures r == lines + Section(heading, items, bullet)
  {
    r := lines;
    if items == [] {
      return;
    }
    r := r + [heading];
    var i := 0;
    while i < |items|
      invariant 0 <= i <= |items|
      invariant r == lines + [heading] + Map(items[..i], bullet)
    {
      MapAccumulate(lines + [heading], r, items, i, bullet);
      r := r + [bullet(items[i])];
      i := i + 1;
    }
    assert items[..i] == items;
    assert r + [""] == lines + Section(heading, items, bullet) by {
      SectionOf(lines, heading, items, bullet);
    }
    r := r + [""];
  }

  /** `render_markdown` */
  method RenderMarkdown(note: WeeklyPulseNote) returns (r: string)
    ensures r == Markdown(note)
  {
    var lines: seq<string> := [];
    lines := lines + [TitleLine(note.title)];
    lines := lines + [WeekLine(note.weekStart, note.weekEnd)];
    lines := lines + [""];
    if note.overview != "" {
      lines := lines + [note.overview];
      lines := lines + [""];
    }
    assert lines == Opening(note);
    ghost var opening := lines;
    lines := AppendSection(lines, "## Themes", note.themes, ThemeBullet);
    lines := AppendSection(lines, "## Quotes", note.quotes, QuoteBullet);
    lines := AppendSection(lines, "## Actions", note.actions, ActionBullet);
    lines := lines + [CountLine(note.wordCount)];
    assert lines == Lines(note) by {
      Assemble(opening, Section("## Themes", note.themes, ThemeBullet), Section("## Quotes", note.quotes, QuoteBullet),
               Section("## Actions", note.actions, ActionBullet), CountLine(note.wordCount));
    }
    r := Strip(Join("\n", lines)) + "\n";
  }

  /** Appending the parts one by one builds the opening, the sections and
      the last line. */
  lemma Assemble<T>(o: seq<T>, a: seq<T>, b: seq<T>, c: seq<T>, last: T)
    ensures o + a + b + c + [last] == o + (a + b + c) + [last]
  {
  }

  // ---------------------------------------------------------------------
  // What the rendering shows

  lemma Ends<T>(a: seq<T>, b: seq<T>, c: T)
    requires |a| >= 3
    ensures |a + b + [c]| >= 4
    ensures (a + b + [c])[0] == a[0] && (a + b + [c])[1] == a[1] && (a + b + [c])[|a + b + [c]| - 1] == c
  {
  }

  /** The first and the last line. */
  lemma LinesEnds(note: WeeklyPulseNote)
    ensures |Lines(note)| >= 4
    ensures Lines(note)[0] == TitleLine(note.title) && Lines(note)[1] == WeekLine(note.weekStart, note.weekEnd)
    ensures Lines(note)[|Lines(note)| - 1] == CountLine(note.wordCount)
  {
    Ends(Opening(note), Sections(note), CountLine(note.wordCount));
  }

  lemma TitleLineOpens(title: string)
    ensures TitleLine(title) != [] && TitleLine(title)[0] == '#'
  {
  }

  lemma CountLineCloses(wordCount: nat)
    ensures CountLine(wordCount) != [] && CountLine(wordCount)[|CountLine(wordCount)| - 1] == '_'
  {
  }

  /** Stripping removes nothing: the text opens with the heading's `#` and
      closes with the count line's `_`, so the result is the lines joined
      and exactly one line feed, after the count line. */
  lemma MarkdownJoined(note: WeeklyPulseNote)
    ensures Markdown(note) == Join("\n", Lines(note)) + "\n"
    ensures Markdown(note)[|Markdown(note)| - 1] == '\n' && Markdown(note)[|Markdown(note)| - 2] == '_'
  {
    var lines := Lines(note);
    var text := Join("\n", lines);
    LinesEnds(note);
    TitleLineOpens(note.title);
    CountLineCloses(note.wordCount);
    JoinEnds("\n", lines);
    assert text != [] && text[0] == '#' && text[|text| - 1] == '_';
    StripOfStripped(text);
  }

  /** A join of three or more parts opens with the first two parts, each
      followed by the separator. */
  lemma JoinOpens<T>(sep: seq<T>, parts: seq<seq<T>>, tail: seq<T>)
    requires |parts| >= 3
    ensures parts[0] + sep + parts[1] + sep <= Join(sep, parts) + tail
  {
    var rest := Join(sep, parts[2..]);
    assert Join(sep, parts[1..]) == parts[1] + sep + rest by {
      assert parts[1..][1..] == parts[2..];
    }
    assert Join(sep, parts) + tail == (parts[0] + sep + parts[1] + sep) + (rest + tail);
  }

  /** The first line is the heading, the title or `Weekly Product Pulse`,
      and the second the week range. */
  lemma MarkdownOpens(note: WeeklyPulseNote)
    ensures StartsWith(Markdown(note), TitleLine(note.title) + "\n" + WeekLine(note.weekStart, note.weekEnd) + "\n")
    ensures note.title != "" ==> StartsWith(Markdown(note), "# " + note.title + "\n")
    ensures note.title == "" ==> StartsWith(Markdown(note), "# " + DefaultTitle + "\n")
  {
    var title := TitleLine(note.title);
    var head := title + "\n" + WeekLine(note.weekStart, note.weekEnd) + "\n";
    assert head <= Markdown(note) by {
      MarkdownJoined(note);
      LinesEnds(note);
      JoinOpens("\n", Lines(note), "\n");
    }
    assert title + "\n" <= head;
  }

  /** The last line is the word count, followed by the one line feed. */
  lemma MarkdownCloses(note: WeeklyPulseNote)
    ensures EndsWith(Markdown(note), "\n" + CountLine(note.wordCount) + "\n")
  {
    var lines := Lines(note);
    MarkdownJoined(note);
    var init := lines[..|lines| - 1];
    assert lines == init + [CountLine(note.wordCount)];
    JoinAppend("\n", init, CountLine(note.wordCount));
    EndsWithConcat3(Join("\n", init), "\n" + CountLine(note.wordCount), "\n");
    assert Markdown(note) == Join("\n", init) + ("\n" + CountLine(note.wordCount)) + "\n";
  }

  /** Where each part of the note is among the lines: the overview
      paragraph only when there is an overview, and each section, only when
      it has items, with its heading, one bullet per item in order and an
      empty line; the count line last. */
  lemma LinesLayout(note: WeeklyPulseNote)
    ensures var lines := Lines(note);
            var o := |Opening(note)|;
            && lines[0] == TitleLine(note.title) && lines[1] == WeekLine(note.weekStart, note.weekEnd) && lines[2] == ""
            && (note.overview != "" <==> o == 5)
            && (note.overview != "" ==> lines[3] == note.overview && lines[4] == "")
            && o + |Sections(note)| + 1 == |lines| && lines[|lines| - 1] == CountLine(note.wordCount)
            && lines[o..o + |Sections(note)|] == Sections(note)
  {
    var lines := Lines(note);
    var o := |Opening(note)|;
    assert lines[..o] == Opening(note);
  }

  /** The sections in order, each present exactly when it has items. */
  lemma SectionsLayout(note: WeeklyPulseNote)
    ensures var s := Sections(note);
            var t := |Section("## Themes", note.themes, ThemeBullet)|;
            var q := |Section("## Quotes", note.quotes, QuoteBullet)|;
            && (note.themes != [] ==> s[0] == "## Themes" && forall i | 0 <= i < |note.themes| :: s[1 + i] == ThemeBullet(note.themes[i]))
            && (note.quotes != [] ==> s[t] == "## Quotes" && forall i | 0 <= i < |note.quotes| :: s[t + 1 + i] == QuoteBullet(note.quotes[i]))
            && (note.actions != [] ==> s[t + q] == "## Actions" && forall i | 0 <= i < |note.actions| :: s[t + q + 1 + i] == ActionBullet(note.actions[i]))
            && |s| == t + q + |Section("## Actions", note.actions, ActionBullet)|
            && t == (if note.themes == [] then 0 else |note.themes| + 2)
            && q == (if note.quotes == [] then 0 else |note.quotes| + 2)
  {
  }

  /** Every theme, quote and action appears in the text as its bullet. */
  lemma BulletsShown(note: WeeklyPulseNote)
    ensures forall i | 0 <= i < |note.themes| :: Contains(Markdown(note), ThemeBullet(note.themes[i]))
    ensures forall i | 0 <= i < |note.quotes| :: Contains(Markdown(note), QuoteBullet(note.quotes[i]))
    ensures forall i | 0 <= i < |note.actions| :: Contains(Markdown(note), ActionBullet(note.actions[i]))
  {
    var o := Opening(note);
    var themes := Section("## Themes", note.themes, ThemeBullet);
    var quotes := Section("## Quotes", note.quotes, QuoteBullet);
    var actions := Section("## Actions", note.actions, ActionBullet);
    var last := [CountLine(note.wordCount)];
    assert Lines(note) == o + (themes + quotes + actions) + last;
    Regroup(o, themes, quotes, actions, last);
    SectionShown(note, o, "## Themes", note.themes, ThemeBullet, quotes + actions + last);
    SectionShown(note, o + themes, "## Quotes", note.quotes, QuoteBullet, actions + last);
    SectionShown(note, o + themes + quotes, "## Actions", note.actions, ActionBullet, last);
  }

  /** The lines, grouped around each of the three sections. */
  lemma Regroup<T>(o: seq<T>, a: seq<T>, b: seq<T>, c: seq<T>, last: seq<T>)
    ensures o + (a + b + c) + last == o + a + (b + c + last)
    ensures o + (a + b + c) + last == (o + a) + b + (c + last)
    ensures o + (a + b + c) + last == (o + a + b) + c + last
  {
  }

  /** Every bullet of a section among the lines is in the text. */
  lemma SectionShown<T>(note: WeeklyPulseNote, pre: seq<string>, heading: string, items: seq<T>,
                        bullet: T -> string, post: seq<string>)
    requires Lines(note) == pre + Section(heading, items, bullet) + post
    ensures forall i | 0 <= i < |items| :: Contains(Markdown(note), bullet(items[i]))
  {
    SectionLines(Lines(note), pre, heading, items, bullet, post);
    forall i | 0 <= i < |items|
      ensures Contains(Markdown(note), bullet(items[i]))
    {
      ShownLine(note, |pre| + 1 + i);
    }
  }

  /** Where a section's bullets sit among lines that hold it. */
  lemma SectionLines<T>(lines: seq<string>, pre: seq<string>, heading: string, items: seq<T>,
                        bullet: T -> string, post: seq<string>)
    requires lines == pre + Section(heading, items, bullet) + post
    ensures forall i | 0 <= i < |items| :: |pre| + 1 + i < |lines| && lines[|pre| + 1 + i] == bullet(items[i])
  {
    var s := Section(heading, items, bullet);
    forall i | 0 <= i < |items|
      ensures |pre| + 1 + i < |lines| && lines[|pre| + 1 + i] == bullet(items[i])
    {
      assert lines[|pre| + 1 + i] == s[1 + i];
    }
  }

  /** Every line is in the text. */
  lemma ShownLine(note: WeeklyPulseNote, k: nat)
    requires k < |Lines(note)|
    ensures Contains(Markdown(note), Lines(note)[k])
  {
    MarkdownJoined(note);
    ContainsJoined("\n", Lines(note), k);
    ContainsAppendRight(Join("\n", Lines(note)), "\n", Lines(note)[k]);
  }


  /** Bullets open with a dash. */
  lemma BulletsOpen(theme: ThemeEntry, quote: string, action: string)
    ensures ThemeBullet(theme)[0] == '-' && QuoteBullet(quote)[0] == '-' && ActionBullet(action)[0] == '-'
  {
  }

  /** A line opening with `#` other than a section's heading is not among
      the section's lines. */
  lemma NotInSection<T>(x: string, heading: string, items: seq<T>, bullet: T -> string)
    requires x != heading && x != [] && x[0] == '#'
    requires forall item :: bullet(item) != [] && bullet(item)[0] == '-'
    ensures x !in Section(heading, items, bullet)
  {
    if items != [] {
      forall k | 0 <= k < |Section(heading, items, bullet)|
        ensures Section(heading, items, bullet)[k] != x
      {
        if 0 < k <= |items| {
          assert Section(heading, items, bullet)[k] == bullet(items[k - 1]);
        }
      }
    }
  }

  /** Each section heading is among the lines exactly when its list has
      items. */
  lemma HeadingsPresent(note: WeeklyPulseNote)
    ensures "## Themes" in Sections(note) <==> note.themes != []
    ensures "## Quotes" in Sections(note) <==> note.quotes != []
    ensures "## Actions" in Sections(note) <==> note.actions != []
  {
    var themes := Section("## Themes", note.themes, ThemeBullet);
    var quotes := Section("## Quotes", note.quotes, QuoteBullet);
    var actions := Section("## Actions", note.actions, ActionBullet);
    forall theme ensures ThemeBullet(theme) != [] && ThemeBullet(theme)[0] == '-' {
      BulletsOpen(theme, "", "");
    }
    forall quote ensures QuoteBullet(quote) != [] && QuoteBullet(quote)[0] == '-' {
      BulletsOpen(ThemeEntry(None, None), quote, "");
    }
    forall action ensures ActionBullet(action) != [] && ActionBullet(action)[0] == '-' {
      BulletsOpen(ThemeEntry(None, None), "", action);
    }
    NotInSection("## Themes", "## Quotes", note.quotes, QuoteBullet);
    NotInSection("## Themes", "## Actions", note.actions, ActionBullet);
    NotInSection("## Quotes", "## Themes", note.themes, ThemeBullet);
    NotInSection("## Quotes", "## Actions", note.actions, ActionBullet);
    NotInSection("## Actions", "## Themes", note.themes, ThemeBullet);
    NotInSection("## Actions", "## Quotes", note.quotes, QuoteBullet);
    assert Sections(note) == themes + quotes + actions;
  }
}
