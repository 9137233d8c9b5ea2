/** The result and error handlers of `src/handling.js`: which command accompanies an
    `InputError`, what text is printed for an error or a result, and how `print` reads its
    arguments.

    The console is not modelled as an effect: a handler returns the `console[level](...)`
    calls it would make. The help cache that `composeHelp` updates is threaded through as
    the `texts` table of `Help.Compose`. The host's lookups, `chalk.red` and
    `populateCommand` are function values of `Env`. */
module Handling {
  import opened Common
  import opened Schema
  import opened Help
  import ParseArgs

  /** The values a handler prints: `undefined`, a string, or any other value, which is
      printed as it is. */
  datatype JsValue = Undefined | Str(s: string) | Other(repr: string)

  /** The second argument of `print`: absent, a width, or a level passed in its place. */
  datatype WidthArg = NoWidth | Width(n: nat) | LevelArg(level: string)

  /** One `console[level](...args)` call. */
  datatype ConsoleCall = ConsoleCall(level: string, args: seq<JsValue>)

  /** What `err.command` and `result.command` carry: the command's config, if any, and the
      name the user typed. */
  datatype CommandRef = CommandRef(config: Option<CommandDef>, inputName: Option<string>)

  /** `getCommandFromEvent(event)`: the command's full path, its config, if any, and the name
      the user typed. */
  datatype EventCommand = EventCommand(fullName: seq<string>, config: Option<CommandDef>, inputName: Option<string>)

  /** The `event` argument of `handleError`, told apart by what `getCommandFromEvent`
      returns for it. */
  datatype Event = NoEvent | EventWithoutCommand | EventWithCommand(command: EventCommand)

  /** An `InputError` with its optional `command`, or any other thrown value. */
  datatype ErrorValue = InputErrorValue(message: string, command: Option<CommandRef>) | OtherError(repr: string)

  /** What `handleResult` receives: a `Help` result, another `Result` with its `value`, or
      a value that is not a `Result`. */
  datatype ResultValue =
    | HelpResult(command: Option<CommandRef>)
    | ValueResult(command: Option<CommandRef>, value: JsValue)
    | Plain(value: JsValue)

  /** The collaborators the handlers call. `rootCommands` and `commandByFullName` are
      `findRootCommands` and `findCommandByFullName`, both with hidden commands included. */
  datatype Env = Env(
    utils: Utils,
    red: string -> string,
    rootCommands: Schema -> seq<CommandDef>,
    commandByFullName: (Option<Schema>, seq<string>) -> Option<CommandDef>,
    populate: (Option<Schema>, CommandDef) -> PopulatedCommand)

  /** The command config and display name chosen for the help after an error. */
  datatype ErrorContext = ErrorContext(config: CommandDef, name: Option<string>)

  // ---------------------------------------------------------------------------------
  // print

  const DefaultLevel := "log"
  const ErrorLevel := "error"

  /** `print(value, maxWidth, level = 'log')`: a string `maxWidth` is the level; a string
      value is wrapped when the width is truthy; the value is printed between two empty
      calls at that level. */
  function Print(utils: Utils, value: JsValue, maxWidth: WidthArg, level: Option<string>): (r: seq<ConsoleCall>)
    ensures |r| == 3 && r[0] == r[2] && r[0].args == [] && |r[1].args| == 1 && r[1].level == r[0].level
    ensures maxWidth.LevelArg? ==> r[0].level == maxWidth.level
    ensures !maxWidth.LevelArg? ==> r[0].level == level.GetOr(DefaultLevel)
    ensures r[1].args[0] != value <==> value.Str? && maxWidth.Width? && maxWidth.n != 0
                                       && utils.wrap(value.s, Some(maxWidth.n), None) != value.s
    ensures value.Str? && maxWidth.Width? && maxWidth.n != 0
            ==> r[1].args[0] == Str(utils.wrap(value.s, Some(maxWidth.n), None))
  {
    var lvl := if maxWidth.LevelArg? then maxWidth.level else level.GetOr(DefaultLevel);
    var width := if maxWidth.Width? then Some(maxWidth.n) else None;
    var shown := if value.Str? && width.Some? && width.value != 0
                 then Str(utils.wrap(value.s, width, None)) else value;
    [ConsoleCall(lvl, []), ConsoleCall(lvl, [shown]), ConsoleCall(lvl, [])]
  }

  // ---------------------------------------------------------------------------------
  // handleError

  /** The parent path of an event command: `fullName.slice(0, -1)`. */
  function ParentPath(fullName: seq<string>): (r: seq<string>)
    ensures |fullName| > 0 ==> fullName == r + [fullName[|fullName| - 1]]
    ensures |fullName| == 0 ==> r == []
  {
    if |fullName| == 0 then [] else fullName[..|fullName| - 1]
  }

  /** The command whose help accompanies an `InputError`: the error's own command; else,
      with an event, the event's command or its parent looked up by path; else, with a
      schema and no event, the first root command. */
  function FindErrorContext(env: Env, command: Option<CommandRef>, schema: Option<Schema>, event: Event): Option<ErrorContext>
  {
    if command.Some? then
      (if command.value.config.Some? then Some(ErrorContext(command.value.config.value, command.value.inputName)) else None)
    else if event.EventWithCommand? then
      var ec := event.command;
      if ec.config.Some? then Some(ErrorContext(ec.config.value, ec.inputName))
      else
        var parent := ParentPath(ec.fullName);
        match env.commandByFullName(schema, parent)
        case Some(c) => Some(ErrorContext(c, Some(Join(parent, " "))))
        case None => None
    else if event.EventWithoutCommand? then None
    else if schema.Some? then
      var roots := env.rootCommands(schema.value);
      if |roots| > 0 then Some(ErrorContext(roots[0], None)) else None
    else None
  }

  /** The text printed for an `InputError` and the help cache afterwards: the red message,
      wrapped to the command's width and followed by a blank line and the command's help
      when a command is found; the red message alone otherwise. */
  function InputErrorText(env: Env, texts: map<string, string>, message: string, command: Option<CommandRef>, schema: Option<Schema>, event: Event)
    : (r: (string, map<string, string>))
    ensures texts.Keys <= r.1.Keys && |r.1.Keys - texts.Keys| <= 1
    ensures env.red(message) != "" ==> r.0 != ""
  {
    match FindErrorContext(env, command, schema, event)
    case None => (env.red(message), texts)
    case Some(ctx) =>
      var cfg := env.populate(schema, ctx.config);
      var (help, texts') := Compose(texts, env.utils, cfg, ctx.name);
      (env.utils.wrap(env.red(message), cfg.wrap, None) + SectionBreak + help, texts')
  }

  /** `handleError(err, config, event)`: the console calls it makes and the help cache
      afterwards. Everything is printed at level `error`. */
  function HandleError(env: Env, texts: map<string, string>, err: ErrorValue, schema: Option<Schema>, event: Event)
    : (r: (seq<ConsoleCall>, map<string, string>))
    ensures |r.0| == 3 && forall k :: 0 <= k < 3 ==> r.0[k].level == ErrorLevel
  {
    match err
    case OtherError(repr) => (Print(env.utils, Other(repr), LevelArg(ErrorLevel), None), texts)
    case InputErrorValue(message, command) =>
      var (text, texts') := InputErrorText(env, texts, message, command, schema, event);
      (Print(env.utils, Str(text), LevelArg(ErrorLevel), None), texts')
  }

  /** How an error thrown by `parseArgs` reaches `handleError`: the missing default command
      is a plain `Error`; an `InputError` carries the parser's current entry, which has a
      typed name and no `config`. */
  function FromParseError(e: ParseArgs.ParseError): (r: ErrorValue)
    ensures e.DefaultCommandMissing? <==> r.OtherError?
    ensures r.InputErrorValue? ==> r.message == e.message && r.command.Some? && r.command.value.config.None?
  {
    match e
    case DefaultCommandMissing(message) => OtherError(message)
    case InputError(message, command) => InputErrorValue(message, Some(CommandRef(None, Some(command.inputName))))
  }

  // ---------------------------------------------------------------------------------
  // handleResult

  /** `commandConfig && commandConfig.wrap` as the width handed to `print`. */
  function ResultWidth(command: Option<CommandRef>): WidthArg
  {
    if command.Some? && command.value.config.Some? && command.value.config.value.wrap.Some?
    then Width(command.value.config.value.wrap.value) else NoWidth
  }

  /** `` `Help is unavailable for ${inputName}` ``, where an absent name reads `undefined`. */
  function HelpUnavailableText(inputName: Option<string>): string
  {
    "Help is unavailable for " + inputName.GetOr("undefined")
  }

  /** What `handleResult` prints, with the width it passes: composed help for a `Help`
      result when both the schema and the command's config are present, the unavailable
      notice for another `Help`, the wrapped `value` of any other `Result`, and a non-result
      value as it is. */
  function ResultOutput(env: Env, texts: map<string, string>, value: ResultValue, schema: Option<Schema>)
    : (r: (JsValue, WidthArg, map<string, string>))
    ensures !value.HelpResult? || r.0.Str?
    ensures r.2 != texts ==> value.HelpResult?
  {
    match value
    case HelpResult(command) =>
      if schema.Some? && command.Some? && command.value.config.Some? then
        var cfg := env.populate(schema, command.value.config.value);
        var (help, texts') := Compose(texts, env.utils, cfg, command.value.inputName);
        (Str(help), NoWidth, texts')
      else
        var inputName := if command.Some? then command.value.inputName else None;
        (Str(HelpUnavailableText(inputName)), NoWidth, texts)
    case ValueResult(command, v) => (v, ResultWidth(command), texts)
    case Plain(v) => (v, NoWidth, texts)
  }

  /** `handleResult(value, config)`: nothing is printed for an `undefined` value; anything
      else is printed at level `log`. */
  function HandleResult(env: Env, texts: map<string, string>, value: ResultValue, schema: Option<Schema>)
    : (r: (seq<ConsoleCall>, map<string, string>))
    ensures r.0 == [] <==> ResultOutput(env, texts, value, schema).0 == Undefined
    ensures r.0 != [] ==> |r.0| == 3 && forall k :: 0 <= k < 3 ==> r.0[k].level == DefaultLevel
  {
    var (shown, width, texts') := ResultOutput(env, texts, value, schema);
    if shown.Undefined? then ([], texts') else (Print(env.utils, shown, width, None), texts')
  }
}
