/** Properties of the handlers of `src/handling.js`: the priority order of the error's
    context, what is printed with and without a context, the help cache across handler
    calls, and the branches of `handleResult`. */
module HandlingLemmas {
  import opened Common
  import opened Schema
  import opened Help
  import HelpLemmas
  import ParseArgs
  import opened Handling

  // ---------------------------------------------------------------------------------
  // Context priority

  /** The error's own command decides alone: neither the event nor the schema's root
      commands matter, and a command without a config gives no help at all. */
  lemma ErrorCommandTakesPriority(env: Env, command: CommandRef, schema: Option<Schema>, e1: Event, e2: Event,
                                  roots: Schema -> seq<CommandDef>)
    ensures FindErrorContext(env, Some(command), schema, e1)
            == FindErrorContext(env.(rootCommands := roots), Some(command), schema, e2)
    ensures FindErrorContext(env, Some(command), schema, e1).Some? <==> command.config.Some?
    ensures command.config.Some? ==>
              FindErrorContext(env, Some(command), schema, e1) == Some(ErrorContext(command.config.value, command.inputName))
  {
  }

  /** Without an error command, an event command that has a config is used with its typed
      name. */
  lemma EventCommandUsedDirectly(env: Env, schema: Option<Schema>, ec: EventCommand)
    requires ec.config.Some?
    ensures FindErrorContext(env, None, schema, EventWithCommand(ec)) == Some(ErrorContext(ec.config.value, ec.inputName))
  {
  }

  /** An event command without a config falls back to its parent: the full path without its
      last segment (the empty path for an empty one), looked up by path and displayed as
      the segments joined by spaces. */
  lemma EventParentFallback(env: Env, schema: Option<Schema>, ec: EventCommand)
    requires ec.config.None?
    ensures var parent := if |ec.fullName| > 0 then ec.fullName[..|ec.fullName| - 1] else [];
            FindErrorContext(env, None, schema, EventWithCommand(ec))
            == (match env.commandByFullName(schema, parent)
                case Some(c) => Some(ErrorContext(c, Some(Join(parent, " "))))
                case None => None)
  {
    if |ec.fullName| > 0 {
      assert ParentPath(ec.fullName) == ec.fullName[..|ec.fullName| - 1];
    }
  }

  /** With an event present the root commands are never consulted, even when the event has
      no command. */
  lemma NoRootFallbackWithEvent(env: Env, schema: Option<Schema>, event: Event, roots: Schema -> seq<CommandDef>)
    requires !event.NoEvent?
    ensures FindErrorContext(env, None, schema, event) == FindErrorContext(env.(rootCommands := roots), None, schema, event)
    ensures event.EventWithoutCommand? ==> FindErrorContext(env, None, schema, event).None?
  {
  }

  /** With neither an error command nor an event, the first root command is used, hidden or
      not, under its own name; without a schema or a root command there is no context. */
  lemma RootCommandFallback(env: Env, schema: Option<Schema>)
    ensures var ctx := FindErrorContext(env, None, schema, NoEvent);
            (ctx.Some? <==> schema.Some? && |env.rootCommands(schema.value)| > 0)
            && (ctx.Some? ==> ctx.value == ErrorContext(env.rootCommands(schema.value)[0], None))
  {
  }

  // ---------------------------------------------------------------------------------
  // What handleError prints

  /** Anything that is not an `InputError` is printed as it is, at level `error`, with no
      help and no change to the help cache. */
  lemma NonInputErrorPrintedAsIs(env: Env, texts: map<string, string>, repr: string, schema: Option<Schema>, event: Event)
    ensures var r := HandleError(env, texts, OtherError(repr), schema, event);
            r.1 == texts && r.0[1] == ConsoleCall(ErrorLevel, [Other(repr)])
  {
  }

  /** Without a context the red message is printed alone, unwrapped, and the help cache is
      unchanged. */
  lemma BareMessageWithoutContext(env: Env, texts: map<string, string>, message: string, command: Option<CommandRef>,
                                  schema: Option<Schema>, event: Event)
    requires FindErrorContext(env, command, schema, event).None?
    ensures var r := HandleError(env, texts, InputErrorValue(message, command), schema, event);
            r.1 == texts && r.0[1] == ConsoleCall(ErrorLevel, [Str(env.red(message))])
  {
  }

  /** With a context, the printed text is the red message wrapped to the populated
      command's width, a blank line, and that command's help for the chosen display name;
      on a cache miss the help is composed and stored under the command's id. */
  lemma HelpFollowsMessage(env: Env, texts: map<string, string>, message: string, command: Option<CommandRef>,
                           schema: Option<Schema>, event: Event)
    requires FindErrorContext(env, command, schema, event).Some?
    ensures var ctx := FindErrorContext(env, command, schema, event).value;
            var cfg := env.populate(schema, ctx.config);
            var r := HandleError(env, texts, InputErrorValue(message, command), schema, event);
            var lead := env.utils.wrap(env.red(message), cfg.wrap, None) + SectionBreak;
            r.0[1].args[0].Str? && lead <= r.0[1].args[0].s
            && cfg.id in r.1
            && r.0[1].args[0].s == lead + r.1[cfg.id]
            && (cfg.id !in texts ==>
                  r.1 == texts[cfg.id := HelpText(env.utils, cfg, DisplayName(cfg, ctx.name))])
  {
    var ctx := FindErrorContext(env, command, schema, event).value;
    var cfg := env.populate(schema, ctx.config);
    var help := Compose(texts, env.utils, cfg, ctx.name);
    var lead := env.utils.wrap(env.red(message), cfg.wrap, None) + SectionBreak;
    assert InputErrorText(env, texts, message, command, schema, event) == (lead + help.0, help.1);
    if cfg.id !in texts {
      assert help.1 == texts[cfg.id := help.0];
    }
  }

  /** A second error for the same command prints the same help as the first, whatever the
      error's message, and leaves the cache as the first left it. */
  lemma RepeatedErrorReusesHelp(env: Env, texts: map<string, string>, m1: string, m2: string,
                                command: Option<CommandRef>, schema: Option<Schema>, event: Event)
    requires FindErrorContext(env, command, schema, event).Some?
    ensures var r1 := HandleError(env, texts, InputErrorValue(m1, command), schema, event);
            var r2 := HandleError(env, r1.1, InputErrorValue(m2, command), schema, event);
            var cfg := env.populate(schema, FindErrorContext(env, command, schema, event).value.config);
            r2.1 == r1.1
            && r2.0[1].args[0] == Str(env.utils.wrap(env.red(m2), cfg.wrap, None) + SectionBreak + r1.1[cfg.id])
  {
    var ctx := FindErrorContext(env, command, schema, event).value;
    var cfg := env.populate(schema, ctx.config);
    HelpLemmas.ComposeIdempotent(texts, env.utils, cfg, ctx.name, ctx.name);
  }

  /** An error from `parseArgs` never comes with help: an `InputError` carries the parser's
      entry, which has no config, so only its red message is printed; the missing default
      command is printed as it is. Neither touches the help cache. */
  lemma ParseErrorsShowNoHelp(env: Env, texts: map<string, string>, args: seq<string>, parsed: Schema,
                              schema: Option<Schema>, event: Event)
    requires ParseArgs.Parse(args, parsed).Err?
    ensures var e := ParseArgs.Parse(args, parsed).error;
            var r := HandleError(env, texts, FromParseError(e), schema, event);
            r.1 == texts
            && r.0[1].args == (if e.InputError? then [Str(env.red(e.message))] else [Other(e.message)])
  {
  }

  // ---------------------------------------------------------------------------------
  // handleResult

  /** A `Help` result with a schema and a command config prints the composed help at level
      `log`, unwrapped; a cached text is reused. */
  lemma HelpResultPrintsHelp(env: Env, texts: map<string, string>, command: CommandRef, schema: Schema)
    requires command.config.Some?
    ensures var cfg := env.populate(Some(schema), command.config.value);
            var help := Compose(texts, env.utils, cfg, command.inputName);
            HandleResult(env, texts, HelpResult(Some(command)), Some(schema))
            == (Print(env.utils, Str(help.0), NoWidth, None), help.1)
            && (cfg.id in texts && texts[cfg.id] != "" ==> help == (texts[cfg.id], texts))
  {
  }

  /** A `Help` result without a schema or without a command config prints the unavailable
      notice naming the typed command, and leaves the cache unchanged. */
  lemma HelpUnavailable(env: Env, texts: map<string, string>, command: Option<CommandRef>, schema: Option<Schema>)
    requires schema.None? || command.None? || command.value.config.None?
    ensures var name := if command.Some? then command.value.inputName else None;
            var r := HandleResult(env, texts, HelpResult(command), schema);
            r.1 == texts && r.0[1] == ConsoleCall(DefaultLevel, [Str(HelpUnavailableText(name))])
  {
    var name := if command.Some? then command.value.inputName else None;
    assert ResultOutput(env, texts, HelpResult(command), schema) == (Str(HelpUnavailableText(name)), NoWidth, texts);
  }

  /** Any other `Result` prints its `value`, a string wrapped to the command config's own
      (unpopulated) width when that width is set and not zero. */
  lemma ValueResultUsesCommandWidth(env: Env, texts: map<string, string>, cfg: CommandDef, inputName: Option<string>,
                                    s: string, schema: Option<Schema>)
    requires cfg.wrap.Some? && cfg.wrap.value != 0
    ensures HandleResult(env, texts, ValueResult(Some(CommandRef(Some(cfg), inputName)), Str(s)), schema).0[1]
            == ConsoleCall(DefaultLevel, [Str(env.utils.wrap(s, cfg.wrap, None))])
  {
  }

  /** A result value without a command config, and any value that is not a `Result`, is
      printed as it is. */
  lemma UnwrappedWithoutWidth(env: Env, texts: map<string, string>, value: ResultValue, schema: Option<Schema>)
    requires value.Plain? || (value.ValueResult? && ResultWidth(value.command).NoWidth?)
    requires !value.value.Undefined?
    ensures HandleResult(env, texts, value, schema) == ([ConsoleCall(DefaultLevel, []), ConsoleCall(DefaultLevel, [value.value]), ConsoleCall(DefaultLevel, [])], texts)
  {
  }

  /** An `undefined` value, bare or as a result's `value`, prints nothing. */
  lemma UndefinedPrintsNothing(env: Env, texts: map<string, string>, command: Option<CommandRef>, schema: Option<Schema>)
    ensures HandleResult(env, texts, Plain(Undefined), schema) == ([], texts)
    ensures HandleResult(env, texts, ValueResult(command, Undefined), schema) == ([], texts)
  {
  }

  /** A `Help` result always prints something. */
  lemma HelpAlwaysPrints(env: Env, texts: map<string, string>, command: Option<CommandRef>, schema: Option<Schema>)
    ensures |HandleResult(env, texts, HelpResult(command), schema).0| == 3
  {
  }
}
