/** The help composer of `src/help.js`: the usage block, the Commands and Options
    sections, and the per-command memo table of composed texts.

    `wrap` and `formatColumns` come from a utilities module that is not part of this model;
    they are the two function values of `Utils` and nothing is assumed about them. */
module Help {
  import opened Common
  import opened Schema

  const Padding: nat := 2
  const FirstColumnWidth: nat := 30

  /** The fixed pieces of the composed text. */
  const UsageHeading := "Usage:\n"
  const CommandsHeading := "Commands:\n"
  const OptionsHeading := "Options:\n"
  const SectionBreak := "\n\n"

  /** One row handed to `formatColumns`: the names cell and the description cell. */
  datatype Row = Row(names: string, description: Option<string>)

  /** `DEFAULT_COLUMNS_CONFIG` extended with a `lineWidth`. */
  datatype ColumnsConfig = ColumnsConfig(padding: nat, columnWidths: seq<nat>, lineWidth: Option<nat>)

  /** `wrap(text, width, indent)` and `formatColumns(rows, config)`. */
  datatype Utils = Utils(
    wrap: (string, Option<nat>, Option<nat>) -> string,
    formatColumns: (seq<Row>, ColumnsConfig) -> string)

  /** JavaScript truthiness of an optional string: present and not empty. */
  predicate Truthy(s: Option<string>)
  {
    s.Some? && s.value != ""
  }

  function ColumnsFor(cfg: PopulatedCommand): ColumnsConfig
  {
    ColumnsConfig(Padding, [FirstColumnWidth], cfg.wrap)
  }

  // ---------------------------------------------------------------------------------
  // Usage

  function PositionalMarker(o: OptionDef): string
  {
    if o.required then " <" + o.name + ">" else " [" + o.name + "]"
  }

  /** The markers the `forEach` over the options appends, in declaration order. */
  function PositionalMarkers(options: seq<OptionDef>): string
  {
    if |options| == 0 then ""
    else
      var last := options[|options| - 1];
      PositionalMarkers(options[..|options| - 1]) + (if last.positional then PositionalMarker(last) else "")
  }

  /** The usage line before wrapping; the unfiltered lists decide both markers. */
  function UsageLine(cfg: PopulatedCommand, name: string): string
  {
    name
    + (if |cfg.options| > 0 then " [options]" + PositionalMarkers(cfg.options) else "")
    + (if |cfg.commands| > 0 then " [command]" else "")
  }

  /** `makeUsageText` as a function: the wrapped usage block, after the wrapped
      description when there is one. */
  function UsageText(utils: Utils, cfg: PopulatedCommand, name: string): string
  {
    var usage := UsageHeading + utils.wrap(UsageLine(cfg, name), cfg.wrap, Some(Padding));
    if Truthy(cfg.description) then utils.wrap(cfg.description.value, cfg.wrap, None) + SectionBreak + usage
    else usage
  }

  /** `makeUsageText` as the source runs it: grows the text with `+=`, one positional
      option at a time. */
  method MakeUsageText(utils: Utils, cfg: PopulatedCommand, name: string) returns (text: string)
    ensures text == UsageText(utils, cfg, name)
  {
    text := name;
    if |cfg.options| > 0 {
      text := AppendPositionalMarkers(text + " [options]", cfg.options);
    }
    if |cfg.commands| > 0 {
      text := text + " [command]";
    }
    assert text == UsageLine(cfg, name);
    text := UsageHeading + utils.wrap(text, cfg.wrap, Some(Padding));
    if cfg.description.Some? && cfg.description.value != "" {
      text := utils.wrap(cfg.description.value, cfg.wrap, None) + SectionBreak + text;
    }
  }

  /** The `forEach` of `makeUsageText`: appends the marker of each positional option. */
  method AppendPositionalMarkers(start: string, options: seq<OptionDef>) returns (text: string)
    ensures text == start + PositionalMarkers(options)
  {
    text := start;
    var k := 0;
    while k < |options|
      invariant 0 <= k <= |options|
      invariant text == start + PositionalMarkers(options[..k])
    {
      var o := options[k];
      PositionalMarkersStep(options, k);
      if o.positional {
        text := text + PositionalMarker(o);
      }
      k := k + 1;
    }
    assert options[..k] == options;
  }

  lemma PositionalMarkersStep(options: seq<OptionDef>, k: nat)
    requires k < |options|
    ensures PositionalMarkers(options[..k + 1])
            == PositionalMarkers(options[..k]) + (if options[k].positional then PositionalMarker(options[k]) else "")
  {
    assert options[..k + 1][..k] == options[..k];
  }

  // ---------------------------------------------------------------------------------
  // Rows

  /** The names not listed in `hiddenNames`, in their order. */
  function VisibleNames(names: seq<string>, hiddenNames: seq<string>): (r: seq<string>)
    ensures forall n :: n in r <==> n in names && n !in hiddenNames
    ensures SubsequenceOf(r, names)
    ensures forall n {:trigger multiset(r)[n]} :: multiset(r)[n] == (if n !in hiddenNames then multiset(names)[n] else 0)
  {
    Filter(names, n => n !in hiddenNames)
  }

  predicate CommandVisible(c: CommandDef) { !c.hidden }
  predicate OptionVisible(o: OptionDef) { !o.hidden }

  function CommandRow(c: CommandDef): Row
  {
    Row(Join(VisibleNames(CommandNames(c), c.hiddenNames), ", "), Some(c.description.GetOr("")))
  }

  predicate SortedByLength(s: seq<string>)
  {
    forall i, j :: 0 <= i < j < |s| ==> |s[i]| <= |s[j]|
  }

  /** Inserts `x` before the first element at least as long, so that equal lengths keep
      their order. */
  function InsertByLength(x: string, s: seq<string>): (r: seq<string>)
    requires SortedByLength(s)
    ensures SortedByLength(r) && multiset(r) == multiset(s) + multiset{x}
  {
    if |s| == 0 || |x| <= |s[0]| then
      SortedCons(x, s);
      [x] + s
    else
      var rest := InsertByLength(x, s[1..]);
      assert s == [s[0]] + s[1..];
      forall y | y in rest ensures |s[0]| <= |y| {
        assert y in multiset(rest);
      }
      SortedCons(s[0], rest);
      [s[0]] + rest
  }

  lemma SortedCons(h: string, t: seq<string>)
    requires SortedByLength(t)
    requires forall y :: y in t ==> |h| <= |y|
    ensures SortedByLength([h] + t)
  {
    var r := [h] + t;
    forall i, j | 0 <= i < j < |r| ensures |r[i]| <= |r[j]| {
      if i == 0 {
        assert r[j] == t[j - 1];
      } else {
        assert r[i] == t[i - 1] && r[j] == t[j - 1];
      }
    }
  }

  /** The comparator sort `(a, b) => a.length - b.length`, a stable sort. */
  function SortByLength(s: seq<string>): (r: seq<string>)
    ensures SortedByLength(r) && multiset(r) == multiset(s)
  {
    if |s| == 0 then []
    else
      assert s == [s[0]] + s[1..];
      InsertByLength(s[0], SortByLength(s[1..]))
  }

  function RenderOptionName(n: string): string
  {
    if |n| == 1 then "-" + n else "--" + n
  }

  function OptionRow(o: OptionDef): Row
  {
    Row(Join(Map(SortByLength(VisibleNames(OptionNames(o), o.hiddenNames)), RenderOptionName), ", "), o.description)
  }

  // ---------------------------------------------------------------------------------
  // Sections and the composed text

  /** `makeCommandsText`: it filters the hidden commands itself. */
  function CommandsText(utils: Utils, cfg: PopulatedCommand, commands: seq<CommandDef>): string
  {
    CommandsHeading + utils.formatColumns(Map(Filter(commands, CommandVisible), CommandRow), ColumnsFor(cfg))
  }

  /** `makeOptionsText`: it filters the hidden options itself. */
  function OptionsText(utils: Utils, cfg: PopulatedCommand, options: seq<OptionDef>): string
  {
    OptionsHeading + utils.formatColumns(Map(Filter(options, OptionVisible), OptionRow), ColumnsFor(cfg))
  }

  /** What follows the usage text: Commands, then Options, each section only when
      something in it is visible. */
  function SectionsText(utils: Utils, cfg: PopulatedCommand): string
  {
    var commands := Filter(cfg.commands, CommandVisible);
    var options := Filter(cfg.options, OptionVisible);
    (if |commands| > 0 then SectionBreak + CommandsText(utils, cfg, commands) else "")
    + (if |options| > 0 then SectionBreak + OptionsText(utils, cfg, options) else "")
  }

  /** The text `composeHelp` builds on a miss. */
  function HelpText(utils: Utils, cfg: PopulatedCommand, name: string): string
  {
    UsageText(utils, cfg, name) + SectionsText(utils, cfg)
  }

  /** `commandName || commandConfig.name`. */
  function DisplayName(cfg: PopulatedCommand, commandName: Option<string>): string
  {
    if Truthy(commandName) then commandName.value else cfg.name
  }

  /** Every stored text is truthy. */
  predicate StoredNonEmpty(texts: map<string, string>)
  {
    forall id :: id in texts ==> texts[id] != ""
  }

  /** `composeHelp` on a memo table: a truthy entry for the command's id is returned as it
      is; otherwise the text is composed, stored under the id and returned. The table gains
      exactly that id and keeps every other entry. */
  function Compose(texts: map<string, string>, utils: Utils, cfg: PopulatedCommand, commandName: Option<string>)
    : (r: (string, map<string, string>))
    ensures r.1.Keys == texts.Keys + {cfg.id} && r.1[cfg.id] == r.0
    ensures forall id :: id in texts && id != cfg.id ==> r.1[id] == texts[id]
    ensures cfg.id in texts && texts[cfg.id] != "" ==> r == (texts[cfg.id], texts)
    ensures r.0 != ""
  {
    if cfg.id in texts && texts[cfg.id] != "" then (texts[cfg.id], texts)
    else
      var text := HelpText(utils, cfg, DisplayName(cfg, commandName));
      HelpTextNonEmpty(utils, cfg, DisplayName(cfg, commandName));
      (text, texts[cfg.id := text])
  }

  /** The composed text always starts with `Usage:` or a description block, so it is never
      empty and a stored entry always hits. */
  lemma HelpTextNonEmpty(utils: Utils, cfg: PopulatedCommand, name: string)
    ensures HelpText(utils, cfg, name) != ""
    ensures UsageText(utils, cfg, name) <= HelpText(utils, cfg, name)
  {
    var usage := UsageHeading + utils.wrap(UsageLine(cfg, name), cfg.wrap, Some(Padding));
    assert |usage| >= |UsageHeading|;
  }

  /** The miss path of `composeHelp`: the usage text, then each visible section appended
      in turn. */
  method BuildHelpText(utils: Utils, cfg: PopulatedCommand, name: string) returns (text: string)
    ensures text == HelpText(utils, cfg, name)
  {
    text := MakeUsageText(utils, cfg, name);
    var commands := Filter(cfg.commands, CommandVisible);
    var options := Filter(cfg.options, OptionVisible);
    var sections := "";
    if |commands| > 0 {
      sections := SectionBreak + CommandsText(utils, cfg, commands);
    }
    if |options| > 0 {
      sections := sections + (SectionBreak + OptionsText(utils, cfg, options));
    }
    text := text + sections;
  }

  /** The module-level `texts` table together with the help composer that reads and writes
      it. */
  class HelpComposer {
    const utils: Utils
    var texts: map<string, string>

    predicate Valid()
      reads this
    {
      StoredNonEmpty(texts)
    }

    constructor(utils: Utils)
      ensures this.utils == utils && texts == map[] && Valid()
    {
      this.utils := utils;
      texts := map[];
    }

    /** `composeHelp(commandConfig, commandName)`. */
    method ComposeHelp(cfg: PopulatedCommand, commandName: Option<string>) returns (text: string)
      requires Valid()
      modifies this
      ensures Valid()
      ensures (text, texts) == Compose(old(texts), utils, cfg, commandName)
      ensures cfg.id in old(texts) ==> text == old(texts)[cfg.id] && texts == old(texts)
      ensures cfg.id !in old(texts) ==> text == HelpText(utils, cfg, DisplayName(cfg, commandName))
                                        && texts == old(texts)[cfg.id := text]
    {
      var name := if commandName.Some? && commandName.value != "" then commandName.value else cfg.name;
      if cfg.id in texts && texts[cfg.id] != "" {
        return texts[cfg.id];
      }
      text := BuildHelpText(utils, cfg, name);
      HelpTextNonEmpty(utils, cfg, name);
      texts := texts[cfg.id := text];
    }
  }
}
