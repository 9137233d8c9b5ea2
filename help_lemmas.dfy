/** Properties of the help composer of `src/help.js`, proved about `HelpText`, `UsageLine`
    and the memo semantics `Compose` that `HelpComposer.ComposeHelp` is proved equal to. */
module HelpLemmas {
  import opened Common
  import opened Schema
  import opened Help

  // ---------------------------------------------------------------------------------
  // The memo table

  /** Once an id is stored, `composeHelp` returns the stored text and leaves the table as
      it is, whatever display name the caller passes. */
  lemma CacheHitIgnoresName(texts: map<string, string>, utils: Utils, cfg: PopulatedCommand, name: Option<string>)
    requires StoredNonEmpty(texts) && cfg.id in texts
    ensures Compose(texts, utils, cfg, name) == (texts[cfg.id], texts)
  {
  }

  /** A second call for the same command hits: same text, same table, even with another
      display name. */
  lemma ComposeIdempotent(texts: map<string, string>, utils: Utils, cfg: PopulatedCommand, n1: Option<string>, n2: Option<string>)
    ensures Compose(Compose(texts, utils, cfg, n1).1, utils, cfg, n2) == Compose(texts, utils, cfg, n1)
  {
  }

  /** The table only ever holds truthy texts, so presence alone decides a hit. */
  lemma ComposeKeepsStoredNonEmpty(texts: map<string, string>, utils: Utils, cfg: PopulatedCommand, name: Option<string>)
    requires StoredNonEmpty(texts)
    ensures StoredNonEmpty(Compose(texts, utils, cfg, name).1)
  {
  }

  /** A miss stores and returns the text for the display name `commandName || name`. */
  lemma MissComposesForDisplayName(texts: map<string, string>, utils: Utils, cfg: PopulatedCommand, name: Option<string>)
    requires cfg.id !in texts
    ensures Compose(texts, utils, cfg, name).0 == HelpText(utils, cfg, if Truthy(name) then name.value else cfg.name)
  {
  }

  // ---------------------------------------------------------------------------------
  // The usage line

  /** The usage line begins with the display name. */
  lemma UsageLineStartsWithName(cfg: PopulatedCommand, name: string)
    ensures name <= UsageLine(cfg, name)
  {
  }

  /** ` [options]` follows the name exactly when the unfiltered option list is non-empty,
      hidden options included. */
  lemma OptionsMarkerIff(cfg: PopulatedCommand, name: string)
    ensures |cfg.options| > 0 <==> name + " [options]" <= UsageLine(cfg, name)
  {
    var line := UsageLine(cfg, name);
    var marker := name + " [options]";
    if |cfg.options| == 0 && |marker| <= |line| {
      assert line == name + " [command]";
      assert line[|name| + 2] != marker[|name| + 2];
    }
  }

  /** The unfiltered command list adds exactly ` [command]` at the end of the line, and
      only when it is non-empty. */
  lemma CommandMarkerIff(cfg: PopulatedCommand, name: string)
    ensures |cfg.commands| > 0 <==> UsageLine(cfg, name) == UsageLine(cfg.(commands := []), name) + " [command]"
    ensures |cfg.commands| == 0 ==> UsageLine(cfg, name) == UsageLine(cfg.(commands := []), name)
  {
  }

  /** The positional markers are those of the positional options, in declaration order:
      ` <name>` for a required one, ` [name]` otherwise. This is the order in which the
      parser's positional queue binds them. */
  lemma {:induction false} PositionalMarkersInOrder(options: seq<OptionDef>)
    ensures PositionalMarkers(options) == Concat(Map(Filter(options, IsPositional), PositionalMarker))
  {
    if |options| > 0 {
      var init, last := options[..|options| - 1], options[|options| - 1];
      assert options == init + [last];
      PositionalMarkersInOrder(init);
      FilterAppend(init, [last], IsPositional);
      MapAppend(Filter(init, IsPositional), Filter([last], IsPositional), PositionalMarker);
      ConcatAppend(Map(Filter(init, IsPositional), PositionalMarker), Map(Filter([last], IsPositional), PositionalMarker));
      if last.positional {
        assert Filter([last], IsPositional) == [last];
        assert Concat(Map([last], PositionalMarker)) == PositionalMarker(last) + Concat([]);
      } else {
        assert Filter([last], IsPositional) == Filter([], IsPositional);
      }
    }
  }

  // ---------------------------------------------------------------------------------
  // Sections

  /** `u + a` starts with `u + b` exactly when `a` starts with `b`. */
  lemma PrefixCancel(u: string, a: string, b: string)
    ensures u + a <= u + b <==> a <= b
  {
    if u + a <= u + b {
      assert a == (u + a)[|u|..] && (u + b)[|u|..|u| + |a|] == b[..|a|];
    }
  }

  /** The Commands section follows the usage text exactly when some command is visible. */
  lemma CommandsSectionIff(utils: Utils, cfg: PopulatedCommand, name: string)
    ensures (exists c :: c in cfg.commands && !c.hidden)
            <==> UsageText(utils, cfg, name) + (SectionBreak + CommandsHeading) <= HelpText(utils, cfg, name)
  {
    PrefixCancel(UsageText(utils, cfg, name), SectionBreak + CommandsHeading, SectionsText(utils, cfg));
    var visible := Filter(cfg.commands, CommandVisible);
    if |visible| > 0 {
      CommandsSectionWhenVisible(utils, cfg);
      assert visible[0] in visible;
    } else {
      NoCommandsSection(utils, cfg);
      forall c | c in cfg.commands ensures c.hidden {
        assert !CommandVisible(c);
      }
    }
  }

  lemma CommandsSectionWhenVisible(utils: Utils, cfg: PopulatedCommand)
    requires |Filter(cfg.commands, CommandVisible)| > 0
    ensures SectionBreak + CommandsHeading <= SectionsText(utils, cfg)
  {
    var commands := Filter(cfg.commands, CommandVisible);
    var options := Filter(cfg.options, OptionVisible);
    var rows := utils.formatColumns(Map(Filter(commands, CommandVisible), CommandRow), ColumnsFor(cfg));
    var tail := if |options| > 0 then SectionBreak + OptionsText(utils, cfg, options) else "";
    assert SectionsText(utils, cfg) == SectionBreak + (CommandsHeading + rows) + tail;
    HeadingPrefix(SectionBreak, CommandsHeading, rows, tail);
  }

  lemma NoCommandsSection(utils: Utils, cfg: PopulatedCommand)
    requires |Filter(cfg.commands, CommandVisible)| == 0
    ensures !(SectionBreak + CommandsHeading <= SectionsText(utils, cfg))
  {
    var options := Filter(cfg.options, OptionVisible);
    if |options| > 0 {
      var rows := utils.formatColumns(Map(Filter(options, OptionVisible), OptionRow), ColumnsFor(cfg));
      assert SectionsText(utils, cfg) == SectionBreak + (OptionsHeading + rows);
      HeadingsDiffer(SectionBreak, CommandsHeading, OptionsHeading, rows);
    }
  }

  /** A section starts with its heading. */
  lemma HeadingPrefix(brk: string, heading: string, rows: string, tail: string)
    ensures brk + heading <= brk + (heading + rows) + tail
  {
    assert (brk + (heading + rows) + tail)[..|brk| + |heading|] == brk + heading;
  }

  /** Two headings with different first characters never extend each other. */
  lemma HeadingsDiffer(brk: string, h1: string, h2: string, rows: string)
    requires |h1| > 0 && |h2| > 0 && h1[0] != h2[0]
    ensures !(brk + h1 <= brk + (h2 + rows))
  {
    assert (brk + h1)[|brk|] == h1[0];
    assert (brk + (h2 + rows))[|brk|] == h2[0];
  }

  /** With a visible option, the Options section ends the text, after the Commands section
      when there is one. */
  lemma OptionsSectionLast(utils: Utils, cfg: PopulatedCommand, name: string)
    requires exists o :: o in cfg.options && !o.hidden
    ensures var section := SectionBreak + OptionsText(utils, cfg, Filter(cfg.options, OptionVisible));
            var h := HelpText(utils, cfg, name);
            |section| <= |h| && h[|h| - |section|..] == section
  {
    var o :| o in cfg.options && !o.hidden;
    assert o in Filter(cfg.options, OptionVisible);
    OptionsSectionEndsHelp(utils, cfg, name);
  }

  lemma OptionsSectionEndsHelp(utils: Utils, cfg: PopulatedCommand, name: string)
    requires |Filter(cfg.options, OptionVisible)| > 0
    ensures EndsWith(HelpText(utils, cfg, name), SectionBreak + OptionsText(utils, cfg, Filter(cfg.options, OptionVisible)))
  {
    var front := OptionsSectionEndsSections(utils, cfg);
    SuffixOf(HelpText(utils, cfg, name), UsageText(utils, cfg, name), front,
             SectionBreak + OptionsText(utils, cfg, Filter(cfg.options, OptionVisible)));
  }


  lemma OptionsSectionEndsSections(utils: Utils, cfg: PopulatedCommand) returns (front: string)
    requires |Filter(cfg.options, OptionVisible)| > 0
    ensures SectionsText(utils, cfg) == front + (SectionBreak + OptionsText(utils, cfg, Filter(cfg.options, OptionVisible)))
  {
    var commands := Filter(cfg.commands, CommandVisible);
    front := if |commands| > 0 then SectionBreak + CommandsText(utils, cfg, commands) else "";
  }

  /** `h` ends with `c`. */
  predicate EndsWith(h: string, c: string)
  {
    |c| <= |h| && h[|h| - |c|..] == c
  }

  lemma SuffixOf(h: string, a: string, b: string, c: string)
    requires h == a + (b + c)
    ensures EndsWith(h, c)
  {
  }

  /** When every command and option is hidden the help text is the usage text alone. */
  lemma NoSectionsWhenAllHidden(utils: Utils, cfg: PopulatedCommand, name: string)
    requires forall c :: c in cfg.commands ==> c.hidden
    requires forall o :: o in cfg.options ==> o.hidden
    ensures HelpText(utils, cfg, name) == UsageText(utils, cfg, name)
  {
    assert SectionsText(utils, cfg) == "";
  }

  /** Without a visible option there is no Options section: the help is the usage text,
      followed by the Commands section when some command is visible. */
  lemma NoOptionsSectionWhenHidden(utils: Utils, cfg: PopulatedCommand, name: string)
    requires forall o :: o in cfg.options ==> o.hidden
    ensures HelpText(utils, cfg, name)
            == UsageText(utils, cfg, name)
               + (if exists c :: c in cfg.commands && !c.hidden
                  then SectionBreak + CommandsText(utils, cfg, Filter(cfg.commands, CommandVisible)) else "")
  {
    var visible := Filter(cfg.commands, CommandVisible);
    FilterNone(cfg.options, OptionVisible);
    if |visible| > 0 {
      assert visible[0] in visible;
    }
  }

  /** A hidden command adds no row; once the list is non-empty it does not change the
      usage line either. */
  lemma HiddenCommandAddsNothing(utils: Utils, cfg: PopulatedCommand, name: string, h: CommandDef)
    requires h.hidden && |cfg.commands| > 0
    ensures HelpText(utils, cfg.(commands := cfg.commands + [h]), name) == HelpText(utils, cfg, name)
  {
    var cfg' := cfg.(commands := cfg.commands + [h]);
    FilterAppend(cfg.commands, [h], CommandVisible);
    assert Filter([h], CommandVisible) == [];
    SameSections(utils, cfg, cfg');
    assert UsageLine(cfg', name) == UsageLine(cfg, name);
    SameUsage(utils, cfg, cfg', name);
  }

  /** A hidden, non-positional option adds no row; once the list is non-empty it does not
      change the usage line either. */
  lemma HiddenOptionAddsNothing(utils: Utils, cfg: PopulatedCommand, name: string, h: OptionDef)
    requires h.hidden && !h.positional && |cfg.options| > 0
    ensures HelpText(utils, cfg.(options := cfg.options + [h]), name) == HelpText(utils, cfg, name)
  {
    var cfg' := cfg.(options := cfg.options + [h]);
    FilterAppend(cfg.options, [h], OptionVisible);
    assert Filter([h], OptionVisible) == [];
    SameSections(utils, cfg, cfg');
    assert cfg'.options[..|cfg'.options| - 1] == cfg.options;
    assert PositionalMarkers(cfg'.options) == PositionalMarkers(cfg.options);
    assert UsageLine(cfg', name) == UsageLine(cfg, name);
    SameUsage(utils, cfg, cfg', name);
  }

  /** The sections depend only on the visible lists and the width. */
  lemma SameSections(utils: Utils, c1: PopulatedCommand, c2: PopulatedCommand)
    requires Filter(c1.commands, CommandVisible) == Filter(c2.commands, CommandVisible)
    requires Filter(c1.options, OptionVisible) == Filter(c2.options, OptionVisible)
    requires c1.wrap == c2.wrap
    ensures SectionsText(utils, c1) == SectionsText(utils, c2)
  {
    assert ColumnsFor(c1) == ColumnsFor(c2);
  }

  /** The usage text depends only on the usage line, the description and the width. */
  lemma SameUsage(utils: Utils, c1: PopulatedCommand, c2: PopulatedCommand, name: string)
    requires UsageLine(c1, name) == UsageLine(c2, name)
    requires c1.description == c2.description && c1.wrap == c2.wrap
    ensures UsageText(utils, c1, name) == UsageText(utils, c2, name)
  {
  }

  // ---------------------------------------------------------------------------------
  // Option rows

  /** The names of one length. */
  function OfLength(len: nat): string -> bool
  {
    y => |y| == len
  }

  /** The comparator sort is stable: names of one length keep their relative order. */
  lemma {:induction false} SortByLengthStable(s: seq<string>, len: nat)
    ensures Filter(SortByLength(s), OfLength(len)) == Filter(s, OfLength(len))
  {
    if |s| > 0 {
      SortByLengthStable(s[1..], len);
      InsertKeepsLengthClass(s[0], SortByLength(s[1..]), len);
    }
  }

  lemma {:induction false} InsertKeepsLengthClass(x: string, s: seq<string>, len: nat)
    requires SortedByLength(s)
    ensures Filter(InsertByLength(x, s), OfLength(len))
            == (if |x| == len then [x] else []) + Filter(s, OfLength(len))
  {
    var p := OfLength(len);
    if |s| == 0 || |x| <= |s[0]| {
      assert InsertByLength(x, s) == [x] + s;
      FilterCons(x, s, p);
    } else {
      InsertKeepsLengthClass(x, s[1..], len);
      assert InsertByLength(x, s) == [s[0]] + InsertByLength(x, s[1..]);
      PassLonger(x, s, InsertByLength(x, s[1..]), len);
    }
  }

  /** Filtering one length class commutes a name past a name of another length. */
  lemma PassLonger(x: string, s: seq<string>, rest: seq<string>, len: nat)
    requires |s| > 0 && |s[0]| < |x|
    requires Filter(rest, OfLength(len)) == (if |x| == len then [x] else []) + Filter(s[1..], OfLength(len))
    ensures Filter([s[0]] + rest, OfLength(len)) == (if |x| == len then [x] else []) + Filter(s, OfLength(len))
  {
    FilterCons(s[0], rest, OfLength(len));
  }

  /** A command row lists the visible names among the name and the aliases, in their
      declared order, joined by `", "`; a missing description reads as the empty string. */
  lemma CommandRowNames(c: CommandDef)
    ensures var shown := VisibleNames(CommandNames(c), c.hiddenNames);
            CommandRow(c).names == Join(shown, ", ")
            && SubsequenceOf(shown, [c.name] + c.aliases)
            && (forall n :: n in shown <==> (n == c.name || n in c.aliases) && n !in c.hiddenNames)
            && CommandRow(c).description == Some(if c.description.Some? then c.description.value else "")
  {
  }

  /** The Commands section is its heading followed by the column layout of one row per
      visible command, in the order of the command list. */
  lemma CommandsTextRows(utils: Utils, cfg: PopulatedCommand, commands: seq<CommandDef>)
    ensures var visible := Filter(commands, CommandVisible);
            var rows := Map(visible, CommandRow);
            CommandsText(utils, cfg, commands) == CommandsHeading + utils.formatColumns(rows, ColumnsFor(cfg))
            && SubsequenceOf(visible, commands)
            && (forall c :: c in visible <==> c in commands && !c.hidden)
            && |rows| == |visible| && (forall k :: 0 <= k < |rows| ==> rows[k] == CommandRow(visible[k]))
            && ColumnsFor(cfg).lineWidth == cfg.wrap
  {
  }

  /** The Options section is its heading followed by the column layout of one row per
      visible option, in the order of the option list. */
  lemma OptionsTextRows(utils: Utils, cfg: PopulatedCommand, options: seq<OptionDef>)
    ensures var visible := Filter(options, OptionVisible);
            var rows := Map(visible, OptionRow);
            OptionsText(utils, cfg, options) == OptionsHeading + utils.formatColumns(rows, ColumnsFor(cfg))
            && SubsequenceOf(visible, options)
            && (forall o :: o in visible <==> o in options && !o.hidden)
            && |rows| == |visible| && (forall k :: 0 <= k < |rows| ==> rows[k] == OptionRow(visible[k]))
            && ColumnsFor(cfg).lineWidth == cfg.wrap
  {
  }

  /** The help text hands each section the list it has already filtered; filtering it
      again changes nothing, so each section shows the visible entries of the command's
      own lists. */
  lemma SectionsGetVisibleEntries(utils: Utils, cfg: PopulatedCommand)
    ensures CommandsText(utils, cfg, Filter(cfg.commands, CommandVisible)) == CommandsText(utils, cfg, cfg.commands)
    ensures OptionsText(utils, cfg, Filter(cfg.options, OptionVisible)) == OptionsText(utils, cfg, cfg.options)
  {
    FilterIdempotent(cfg.commands, CommandVisible);
    FilterIdempotent(cfg.options, OptionVisible);
  }

  /** An option row lists the visible names shortest first, single characters as `-x` and
      longer names as `--name`. */
  lemma OptionRowNames(o: OptionDef)
    ensures var sorted := SortByLength(VisibleNames(OptionNames(o), o.hiddenNames));
            OptionRow(o).names == Join(Map(sorted, RenderOptionName), ", ")
            && SortedByLength(sorted)
            && multiset(sorted) == multiset(VisibleNames(OptionNames(o), o.hiddenNames))
            && forall k :: 0 <= k < |sorted| ==>
                 Map(sorted, RenderOptionName)[k] == (if |sorted[k]| == 1 then "-" else "--") + sorted[k]
  {
  }
}
