/** The fixed theme table of the classifier and its lookups
    (src/layer2/theme_config.py). */
module ThemeConfig {
  import opened Common

  datatype ThemeDefinition = ThemeDefinition(id: string, name: string, description: string)

  /** A theme found by the discovery step; only the fields the lookup
      reads are kept. `mappedToPredefined` is `None` when the attribute is
      unset. */
  datatype DiscoveredTheme = DiscoveredTheme(themeId: string, themeName: string, description: string,
                                             mappedToPredefined: Option<string>)

  /** An entry of the discovered-themes list: a `DiscoveredTheme`, or an
      object of some other type, which the lookup ignores. */
  datatype DiscoveredEntry = Discovered(theme: DiscoveredTheme) | OtherEntry

  /** The keys of `FIXED_THEMES`, in its insertion order, and the names of
      their themes. */
  const ThemeIds: seq<string> :=
    ["glitches", "ui_ux", "payments_statements", "customer_support", "slow", "fees_financial_concerns"]
  const ThemeNames: seq<string> :=
    ["Slow, Glitches", "UI/UX", "Payments/Statements", "Customer Support", "Slow", "Fees & Financial Concerns"]

  /** The descriptions of the themes, in table order. */
  const GlitchesText := "When placing order in intraday it place order really late and sometimes even after 20 mins order pending and when the place the order already miss on profits. Even today market is open from 15 mins and still can't place new orders really getting in my nerves now."
  const UiUxText := "Easy and simple user interface but today I need a stock holding statement for a visa application."
  const PaymentsText := "Many problems are there in this app.. and you see more profit on your PL, But when you exit it it will less than the first amount and when you see the loss amount on your PL when exit it the loss amount is more than when you see first... if you put a target number the target will hit only the target number cross above not will hit even reach the target"
  const SupportText := "Issues related to customer service, support responsiveness, help requests, and communication with support team."
  const SlowText := "App performance issues, slow loading times, laggy interface, delayed responses, and general performance problems."
  const FeesText := "Complaints about unexpected charges, brokerage fees, balance deductions, or transparency around financial transactions."

  /** `FIXED_THEMES`: each key maps to the definition with that id. */
  const FixedThemes: seq<(string, ThemeDefinition)> := [
    (ThemeIds[0], ThemeDefinition(ThemeIds[0], ThemeNames[0], GlitchesText)),
    (ThemeIds[1], ThemeDefinition(ThemeIds[1], ThemeNames[1], UiUxText)),
    (ThemeIds[2], ThemeDefinition(ThemeIds[2], ThemeNames[2], PaymentsText)),
    (ThemeIds[3], ThemeDefinition(ThemeIds[3], ThemeNames[3], SupportText)),
    (ThemeIds[4], ThemeDefinition(ThemeIds[4], ThemeNames[4], SlowText)),
    (ThemeIds[5], ThemeDefinition(ThemeIds[5], ThemeNames[5], FeesText))
  ]

  const DefaultThemeId := "ui_ux"

  /** The table is keyed by theme id: its keys are `ThemeIds` in order,
      every key is its definition's id and names its theme's name. */
  lemma FixedThemesKeyed()
    ensures |FixedThemes| == |ThemeIds| == |ThemeNames|
    ensures forall i | 0 <= i < |FixedThemes| ::
              FixedThemes[i].0 == FixedThemes[i].1.id == ThemeIds[i] && FixedThemes[i].1.name == ThemeNames[i]
  {
  }

  /** Theme ids are written in lower-case letters and underscores. */
  predicate IdChars(k: string)
  {
    forall i | 0 <= i < |k| :: 'a' <= k[i] <= 'z' || k[i] == '_'
  }

  /** `get_all_theme_ids`: the keys in table order, pairwise distinct,
      non-empty and made of id characters. */
  function GetAllThemeIds(): (ids: seq<string>)
    ensures |ids| == 6
    ensures forall i, j | 0 <= i < j < |ids| :: ids[i] != ids[j]
    ensures forall k | k in ids :: k != [] && IdChars(k)
  {
    ThemeIds
  }

  /** Every key is already lower-case and stripped. */
  lemma ThemeIdsNormalised()
    ensures forall k | k in GetAllThemeIds() :: Strip(Lower(k)) == k
  {
    forall k | k in GetAllThemeIds() ensures Strip(Lower(k)) == k {
      assert Lower(k) == k;
      StripOfStripped(k);
    }
  }

  /** `DEFAULT_THEME_ID` is a key of the table. */
  lemma DefaultThemeIsFixed()
    ensures DefaultThemeId in GetAllThemeIds()
  {
    assert GetAllThemeIds()[1] == DefaultThemeId;
  }

  /** `FIXED_THEMES.get(key)`: the position of `key` among the keys. */
  function Position(key: string): (r: Option<nat>)
    ensures r.Some? ==> r.value < |ThemeIds| && ThemeIds[r.value] == key
    ensures r.None? ==> key !in GetAllThemeIds()
  {
    PositionFrom(key, 0)
  }

  function PositionFrom(key: string, i: nat): (r: Option<nat>)
    requires i <= |ThemeIds|
    ensures r.Some? ==> i <= r.value < |ThemeIds| && ThemeIds[r.value] == key
    ensures r.None? ==> forall j | i <= j < |ThemeIds| :: ThemeIds[j] != key
    decreases |ThemeIds| - i
  {
    if i == |ThemeIds| then None
    else if ThemeIds[i] == key then Some(i)
    else PositionFrom(key, i + 1)
  }

  /** The position `get_theme_by_id` reads: that of the lower-cased id, or
      the default theme's. */
  function LookupPosition(themeId: string): (i: nat)
    ensures i < |ThemeIds|
    ensures Lower(themeId) in GetAllThemeIds() ==> ThemeIds[i] == Lower(themeId)
    ensures Lower(themeId) !in GetAllThemeIds() ==> ThemeIds[i] == DefaultThemeId
  {
    match Position(Lower(themeId))
    case Some(i) => i
    case None => 1
  }

  /** `get_theme_by_id`: the definition of the lower-cased id, or the
      default theme's when there is none. */
  function GetThemeById(themeId: string): (r: ThemeDefinition)
    ensures Lower(themeId) in GetAllThemeIds() ==> r.id == Lower(themeId)
    ensures Lower(themeId) !in GetAllThemeIds() ==> r.id == DefaultThemeId
    ensures exists i | 0 <= i < |FixedThemes| :: r == FixedThemes[i].1
  {
    FixedThemesKeyed();
    FixedThemes[LookupPosition(themeId)].1
  }

  /** `get_theme_by_id(theme_id).name`, read from the names alone. */
  function ThemeName(themeId: string): string
  {
    ThemeNames[LookupPosition(themeId)]
  }

  /** The name lookup agrees with `get_theme_by_id`, and the name of a key
      is the one the table gives it. */
  lemma ThemeNameAgrees(themeId: string)
    ensures ThemeName(themeId) == GetThemeById(themeId).name
    ensures forall i | 0 <= i < |FixedThemes| && FixedThemes[i].0 == Lower(themeId) ::
              ThemeName(themeId) == FixedThemes[i].1.name
  {
    FixedThemesKeyed();
  }

  /** The id is the same whatever its case. */
  lemma GetThemeByIdCaseInsensitive(a: string, b: string)
    requires Lower(a) == Lower(b)
    ensures GetThemeById(a) == GetThemeById(b)
  {
  }

  /** One prompt line: `f"{idx}. {theme.name} ({theme_id}) – {theme.description}"`. */
  function PromptLine(idx: nat, themeId: string, theme: ThemeDefinition): string
  {
    NatToString(idx) + ". " + theme.name + " (" + themeId + ") – " + theme.description
  }

  function PromptLines(table: seq<(string, ThemeDefinition)>): (lines: seq<string>)
    ensures |lines| == |table|
  {
    seq(|table|, i requires 0 <= i < |table| => PromptLine(i + 1, table[i].0, table[i].1))
  }

  /** `format_themes_for_prompt`, over the table it enumerates. */
  function FormatThemes(table: seq<(string, ThemeDefinition)>): string
  {
    Join("\n", PromptLines(table))
  }

  function FormatThemesForPrompt(): string
  {
    FormatThemes(FixedThemes)
  }

  /** No theme id, name or description spans more than one line. */
  predicate SingleLine(table: seq<(string, ThemeDefinition)>)
  {
    forall k | 0 <= k < |table| ::
      '\n' !in table[k].0 && '\n' !in table[k].1.name && '\n' !in table[k].1.description
  }

  /** The prompt has one line per theme, in table order, numbered from 1. */
  lemma FormatThemesLines(table: seq<(string, ThemeDefinition)>)
    requires table != [] && SingleLine(table)
    ensures |Split(FormatThemes(table), '\n')| == |table|
    ensures forall i | 0 <= i < |table| ::
              Split(FormatThemes(table), '\n')[i] == PromptLine(i + 1, table[i].0, table[i].1)
  {
    var lines := PromptLines(table);
    forall k | 0 <= k < |lines| ensures '\n' !in lines[k] {
      NatToStringDigits(k + 1);
    }
    SplitJoin(lines, '\n');
  }

  lemma NatToStringDigits(n: nat)
    ensures '\n' !in NatToString(n)
  {
  }

  /** The first discovered theme whose id matches `themeId` ignoring case. */
  function FindDiscovered(themeId: string, discovered: seq<DiscoveredEntry>): (r: Option<DiscoveredTheme>)
    ensures r.Some? ==> Discovered(r.value) in discovered && Lower(r.value.themeId) == Lower(themeId)
    ensures r.None? ==> forall k | 0 <= k < |discovered| && discovered[k].Discovered? ::
                          Lower(discovered[k].theme.themeId) != Lower(themeId)
    decreases |discovered|
  {
    if discovered == [] then None
    else if discovered[0].Discovered? && Lower(discovered[0].theme.themeId) == Lower(themeId) then
      Some(discovered[0].theme)
    else
      var r := FindDiscovered(themeId, discovered[1..]);
      assert forall k | 1 <= k < |discovered| :: discovered[k] == discovered[1..][k - 1];
      r
  }

  /** `get_theme_by_id_or_discovered`. Indexing the table with a mapped id
      that is not one of its keys raises `KeyError`. */
  function GetThemeByIdOrDiscovered(themeId: string, discovered: seq<DiscoveredEntry>): (r: Result<ThemeDefinition>)
    ensures FindDiscovered(themeId, discovered).None? ==> r == Ok(GetThemeById(themeId))
    ensures FindDiscovered(themeId, discovered).Some? ==>
              var d := FindDiscovered(themeId, discovered).value;
              if d.mappedToPredefined.Some? && d.mappedToPredefined.value != [] then
                (r.Ok? <==> d.mappedToPredefined.value in GetAllThemeIds())
                && (r.Ok? ==> r.value.id == d.mappedToPredefined.value)
              else r == Ok(ThemeDefinition(d.themeId, d.themeName, d.description))
  {
    FixedThemesKeyed();
    match FindDiscovered(themeId, discovered)
    case None => Ok(GetThemeById(themeId))
    case Some(d) =>
      if d.mappedToPredefined.Some? && d.mappedToPredefined.value != [] then
        match Position(d.mappedToPredefined.value)
        case Some(i) => Ok(FixedThemes[i].1)
        case None => Err("KeyError")
      else Ok(ThemeDefinition(d.themeId, d.themeName, d.description))
  }

  /** With no discovered themes the lookup is `get_theme_by_id`. */
  lemma NoDiscoveredFallsBack(themeId: string, discovered: seq<DiscoveredEntry>)
    requires forall k | 0 <= k < |discovered| :: discovered[k].OtherEntry?
    ensures GetThemeByIdOrDiscovered(themeId, discovered) == Ok(GetThemeById(themeId))
  {
  }
}
