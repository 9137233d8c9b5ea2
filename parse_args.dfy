/** The argument tokenizer and the scope-aware parser of `src/parseArgs.js`.

    `TokenizeArgs` and `ParseArgs` are the source's two loops, written as methods; each is
    proved equal to a reference function (`Tokenize`, `Parse`). `Parse` is a run of `Step`
    over the token list: one `Step` per token, exactly as one iteration of the source's
    `for` loop, including the extra `i++` of a short option that consumes its value. */
module ParseArgs {
  import opened Common
  import opened Schema

  // ---------------------------------------------------------------------------------
  // Tokens

  datatype TokenKind = Value | LongOption | ShortOption | EndOfOptions

  /** A classified token: `body` is what the parser reads, `arg` the raw argument. */
  datatype Token = Token(kind: TokenKind, body: string, arg: string)

  /** The short tokens of a bundle `-abc`: one per character of `chars`. */
  function ShortTokens(chars: string, arg: string): (r: seq<Token>)
    ensures |r| == |chars|
    ensures forall k :: 0 <= k < |r| ==> r[k] == Token(ShortOption, [chars[k]], arg)
  {
    if |chars| == 0 then [] else ShortTokens(chars[..|chars| - 1], arg) + [Token(ShortOption, [chars[|chars| - 1]], arg)]
  }

  /** The tokens one raw argument contributes. A bare `-` contributes none. */
  function TokenizeArg(arg: string): (r: seq<Token>)
    ensures forall t :: t in r ==> t.arg == arg
    ensures r == [] <==> arg == "-"
  {
    if |arg| > 0 && arg[0] == '-' then
      if |arg| > 1 && arg[1] == '-' then
        if |arg| > 2 then [Token(LongOption, arg[2..], arg)]
        else [Token(EndOfOptions, arg, arg)]
      else ShortTokens(arg[1..], arg)
    else [Token(Value, arg, arg)]
  }

  /** `tokenizeArgs`: a left fold over the arguments, as the source's `reduce`. */
  function Tokenize(args: seq<string>): seq<Token>
  {
    FlatMap(args, TokenizeArg)
  }

  /** `tokenizeArgs` as the source runs it: push each argument's tokens onto an accumulator. */
  method TokenizeArgs(args: seq<string>) returns (tokens: seq<Token>)
    ensures tokens == Tokenize(args)
  {
    tokens := [];
    var n := 0;
    while n < |args|
      invariant 0 <= n <= |args|
      invariant tokens == Tokenize(args[..n])
    {
      var arg := args[n];
      assert args[..n + 1][..n] == args[..n];
      if |arg| > 0 && arg[0] == '-' && |arg| > 1 && arg[1] == '-' {
        var body := arg[2..];
        if |body| > 0 {
          tokens := tokens + [Token(LongOption, body, arg)];
        } else {
          tokens := tokens + [Token(EndOfOptions, arg, arg)];
        }
      } else if |arg| > 0 && arg[0] == '-' {
        var body := arg[1..];
        ghost var before := tokens;
        var k := 0;
        while k < |body|
          invariant 0 <= k <= |body|
          invariant tokens == before + ShortTokens(body[..k], arg)
        {
          assert body[..k + 1][..k] == body[..k];
          tokens := tokens + [Token(ShortOption, [body[k]], arg)];
          k := k + 1;
        }
        assert body[..k] == body;
      } else {
        tokens := tokens + [Token(Value, arg, arg)];
      }
      n := n + 1;
    }
    assert args[..n] == args;
  }

  // ---------------------------------------------------------------------------------
  // Parse results and state

  datatype ResolvedOption = ResolvedOption(name: string, inputName: string, value: Option<string>)
  datatype ResolvedCommand = ResolvedCommand(name: string, inputName: string, options: seq<ResolvedOption>)

  /** A plain `Error` (no default command) or an `InputError` carrying the current entry. */
  datatype ParseError =
    | DefaultCommandMissing(message: string)
    | InputError(message: string, command: ResolvedCommand)

  /** What `extractFromCommandConfig` returns: the commands and options reachable from the
      current command and the queue of positional options still to fill. */
  datatype Scope = Scope(commands: seq<CommandDef>, options: seq<OptionDef>, positionals: seq<OptionDef>)

  /** The parser's loop state besides the cursor. */
  datatype ParseState = ParseState(batch: seq<ResolvedCommand>, scope: Scope, noOptionsMode: bool)

  const DefaultCommandMessage := "For the CLI plugin to work, a default root command must be set"
  const EmptyNameMessage := "An option's name must not be empty"
  /** `CONSUME_BY_TYPE`: the option types whose short form does not consume a value. */
  const ConsumeByType: map<string, bool> := map["boolean" := false]

  function ShortOptionMessage(name: string, arg: string): string
  {
    "Short options may only contain letters and numbers. Found \"" + name + "\" in \"" + arg + "\""
  }

  /** `SHORT_OPTION_FORMAT`, the pattern `^[a-zA-Z0-9]$`. */
  predicate IsShortName(name: string)
  {
    |name| == 1 && ('a' <= name[0] <= 'z' || 'A' <= name[0] <= 'Z' || '0' <= name[0] <= '9')
  }

  /** `extractFromCommandConfig`. */
  function Extract(command: CommandDef, schema: Schema): (r: Scope)
    ensures forall c :: c in r.commands ==> c in schema.commands && c.id in command.commands
    ensures forall o :: o in r.options ==> o in schema.options && o.id in command.options
    ensures forall o :: o in r.positionals <==> o in r.options && o.positional
    ensures SubsequenceOf(Map(r.commands, CommandId), command.commands)
    ensures SubsequenceOf(Map(r.options, OptionId), command.options)
    ensures r.positionals == Filter(r.options, IsPositional)
    ensures forall id :: id in command.commands && FindById(schema.commands, CommandId, id).Some?
                         ==> FindById(schema.commands, CommandId, id).value in r.commands
    ensures forall id :: id in command.options && FindById(schema.options, OptionId, id).Some?
                         ==> FindById(schema.options, OptionId, id).value in r.options
  {
    var options := FindByIds(schema.options, OptionId, command.options);
    Scope(FindByIds(schema.commands, CommandId, command.commands), options, Filter(options, IsPositional))
  }

  /** `indexOf` of one character: the position of its first occurrence. */
  function IndexOf(s: string, c: char): (r: Option<nat>)
    ensures r.Some? ==> r.value < |s| && s[r.value] == c && c !in s[..r.value]
    ensures r.None? <==> c !in s
  {
    if |s| == 0 then None
    else if s[0] == c then Some(0)
    else match IndexOf(s[1..], c)
      case Some(k) => assert s[..k + 1] == [s[0]] + s[1..][..k]; Some(k + 1)
      case None => None
  }

  /** The name an option token is typed with: a long option's body up to its first `=`,
      a short option's character. */
  function OptionNameOf(t: Token): string
  {
    if t.kind == LongOption then
      match IndexOf(t.body, '=')
      case Some(k) => t.body[..k]
      case None => t.body
    else t.body
  }

  /** The consume policy of a known short option: an explicit `consume`, else the verdict
      of `CONSUME_BY_TYPE` for its type, else `true`. */
  function Consumes(o: OptionDef): bool
  {
    match o.consume
    case Some(b) => b
    case None => if o.typ.Some? && o.typ.value in ConsumeByType then ConsumeByType[o.typ.value] else true
  }

  /** Appends a resolved option to the last entry of the batch (`currentCommand.options.push`:
      the current command is always the batch's last entry). */
  function AddToLast(batch: seq<ResolvedCommand>, o: ResolvedOption): (r: seq<ResolvedCommand>)
    requires |batch| > 0
    ensures |r| == |batch| && r[..|r| - 1] == batch[..|batch| - 1]
    ensures r[|r| - 1].name == batch[|batch| - 1].name && r[|r| - 1].inputName == batch[|batch| - 1].inputName
    ensures r[|r| - 1].options == batch[|batch| - 1].options + [o]
  {
    var last := batch[|batch| - 1];
    batch[..|batch| - 1] + [last.(options := last.options + [o])]
  }

  /** The three outcomes of a bare word. */
  datatype BareWordOutcome = Descend(command: CommandDef) | BindPositional(option: OptionDef) | SyntheticUnknown

  /** The decision of the source's bare-word branch: a matching sub-command wins, then an
      empty positional queue opens an unknown command, else the queue's front is bound. */
  function ClassifyBareWord(scope: Scope, word: string): (r: BareWordOutcome)
    ensures r.Descend? <==> exists c :: c in scope.commands && word in CommandNames(c)
    ensures r.Descend? ==> r.command in scope.commands && word in CommandNames(r.command)
    ensures r.BindPositional? ==> |scope.positionals| > 0 && r.option == scope.positionals[0]
    ensures r.SyntheticUnknown? ==> |scope.positionals| == 0
  {
    match FindOneByNames(scope.commands, CommandNames, word)
    case Some(c) => Descend(c)
    case None => if |scope.positionals| == 0 then SyntheticUnknown else BindPositional(scope.positionals[0])
  }

  const EmptyScope := Scope([], [], [])

  /** The bare-word branch: descend, open an unknown command, or bind a positional. The new
      entry is named by the typed word in both descending cases. */
  function ApplyBareWord(schema: Schema, st: ParseState, word: string): (r: ParseState)
    requires |st.batch| > 0
    ensures r.noOptionsMode == st.noOptionsMode
    ensures |r.batch| == |st.batch| + (if ClassifyBareWord(st.scope, word).BindPositional? then 0 else 1)
    ensures r.batch[..|st.batch| - 1] == st.batch[..|st.batch| - 1]
  {
    match ClassifyBareWord(st.scope, word)
    case Descend(c) =>
      st.(batch := st.batch + [ResolvedCommand(word, word, [])], scope := Extract(c, schema))
    case SyntheticUnknown =>
      st.(batch := st.batch + [ResolvedCommand(word, word, [])], scope := EmptyScope)
    case BindPositional(o) =>
      st.(batch := AddToLast(st.batch, ResolvedOption(o.name, o.name, Some(word))),
          scope := st.scope.(positionals := st.scope.positionals[1..]))
  }

  /** Whether option token `i` takes the next token as its value: a short option found in
      the scope whose policy is to consume, followed by a value token. */
  predicate ConsumesNext(toks: seq<Token>, i: nat, st: ParseState)
    requires i < |toks|
  {
    var optionConfig := FindOneByNames(st.scope.options, OptionNames, OptionNameOf(toks[i]));
    toks[i].kind == ShortOption && optionConfig.Some? && Consumes(optionConfig.value)
    && i + 1 < |toks| && toks[i + 1].kind == Value
  }

  /** The value recorded for option token `i`: the text after a `=` that is not the first
      character of a long option, else the consumed next token, else none. */
  function OptionValue(toks: seq<Token>, i: nat, st: ParseState): Option<string>
    requires i < |toks|
  {
    var t := toks[i];
    var eqPos := IndexOf(t.body, '=');
    if t.kind == LongOption && eqPos.Some? && eqPos.value > 0 then Some(t.body[eqPos.value + 1..])
    else if ConsumesNext(toks, i, st) then Some(toks[i + 1].body)
    else None
  }

  /** The option branch for token `i`: the error checks, then the value, then the append. */
  function ApplyOption(schema: Schema, toks: seq<Token>, i: nat, st: ParseState): (r: Result<(ParseState, nat), ParseError>)
    requires i < |toks| && |st.batch| > 0
    requires toks[i].kind == LongOption || toks[i].kind == ShortOption
    ensures r.Ok? ==> r.value.1 == i + 1 || (r.value.1 == i + 2 && i + 1 < |toks| && toks[i + 1].kind == Value)
    ensures r.Ok? ==> r.value.0 == st.(batch := r.value.0.batch) && |r.value.0.batch| == |st.batch|
  {
    var t := toks[i];
    var name := OptionNameOf(t);
    if t.kind == ShortOption && !IsShortName(name) then
      Err(InputError(ShortOptionMessage(name, t.arg), st.batch[|st.batch| - 1]))
    else if name == "" then
      Err(InputError(EmptyNameMessage, st.batch[|st.batch| - 1]))
    else
      Ok((st.(batch := AddToLast(st.batch, ResolvedOption(name, name, OptionValue(toks, i, st)))),
          if ConsumesNext(toks, i, st) then i + 2 else i + 1))
  }

  /** One iteration of the parser's loop at cursor `i`: the next state and the next cursor. */
  function Step(schema: Schema, toks: seq<Token>, i: nat, st: ParseState): (r: Result<(ParseState, nat), ParseError>)
    requires i < |toks| && |st.batch| > 0
    ensures r.Ok? ==> i < r.value.1 <= |toks| && |r.value.0.batch| > 0
    ensures r.Ok? ==> r.value.1 == i + 1 || (r.value.1 == i + 2 && toks[i + 1].kind == Value)
    ensures r.Ok? ==> |st.batch| <= |r.value.0.batch|
  {
    var t := toks[i];
    if t.kind == EndOfOptions then Ok((st.(noOptionsMode := true), i + 1))
    else if !st.noOptionsMode && (t.kind == LongOption || t.kind == ShortOption) then
      ApplyOption(schema, toks, i, st)
    else Ok((ApplyBareWord(schema, st, t.body), i + 1))
  }

  /** The parser's loop from cursor `i` to the end of the tokens, stopping at the first error. */
  function Run(schema: Schema, toks: seq<Token>, i: nat, st: ParseState): (r: Result<ParseState, ParseError>)
    requires i <= |toks| && |st.batch| > 0
    ensures r.Ok? ==> |st.batch| <= |r.value.batch|
    decreases |toks| - i
  {
    if i == |toks| then Ok(st)
    else match Step(schema, toks, i, st)
      case Err(e) => Err(e)
      case Ok((st', j)) => Run(schema, toks, j, st')
  }

  /** The state the loop starts in: the default command's entry and scope. */
  function InitialState(schema: Schema, d: CommandDef): ParseState
  {
    ParseState([ResolvedCommand(d.name, d.name, [])], Extract(d, schema), false)
  }

  /** `parseArgs` as a function of its inputs. */
  function Parse(args: seq<string>, schema: Schema): (r: Result<seq<ResolvedCommand>, ParseError>)
  {
    match FindDefaultCommand(schema)
    case None => Err(DefaultCommandMissing(DefaultCommandMessage))
    case Some(d) =>
      match Run(schema, Tokenize(args), 0, InitialState(schema, d))
      case Ok(st) => Ok(st.batch)
      case Err(e) => Err(e)
  }

  /** The option branch of the loop body, run on the state `st` at cursor `i`: the name
      checks (a short name outside `[a-zA-Z0-9]`, an empty long name), then the value (an
      inline `=` value, or the next value token for a consuming short option), then the
      append to the current entry. The new cursor is the last token it read plus one. */
  method ResolveOption(schema: Schema, tokens: seq<Token>, i: nat, st: ParseState)
    returns (r: Result<(ParseState, nat), ParseError>)
    requires i < |tokens| && |st.batch| > 0
    requires tokens[i].kind == LongOption || tokens[i].kind == ShortOption
    ensures r == ApplyOption(schema, tokens, i, st)
  {
    var t := tokens[i];
    var batch, options := st.batch, st.scope.options;
    var isLong := t.kind == LongOption;
    var eqPos := IndexOf(t.body, '=');
    var name := if isLong && eqPos.Some? then t.body[..eqPos.value] else t.body;
    var value: Option<string> := None;
    var next := i;
    assert name == OptionNameOf(t);
    if !isLong && !IsShortName(name) {
      return Err(InputError(ShortOptionMessage(name, t.arg), batch[|batch| - 1]));
    }
    if name == "" {
      return Err(InputError(EmptyNameMessage, batch[|batch| - 1]));
    }
    var optionConfig := FindOneByNames(options, OptionNames, name);
    if isLong && eqPos.Some? && eqPos.value > 0 {
      value := Some(t.body[eqPos.value + 1..]);
    } else if !isLong && optionConfig.Some? {
      var consume := optionConfig.value.consume;
      if consume.None? && optionConfig.value.typ.Some? && optionConfig.value.typ.value in ConsumeByType {
        consume := Some(ConsumeByType[optionConfig.value.typ.value]);
      }
      if consume.None? {
        consume := Some(true);
      }
      assert consume.value == Consumes(optionConfig.value);
      if consume.value && next + 1 < |tokens| && tokens[next + 1].kind == Value {
        next := next + 1;
        value := Some(tokens[next].body);
      }
    }
    batch := AddToLast(batch, ResolvedOption(name, name, value));
    return Ok((st.(batch := batch), next + 1));
  }

  /** One iteration of the source's loop body on the state `st`: the `--` marker, the
      option branch or the bare-word branch. Returns the new state and the cursor of the next
      iteration (one past the last token read). */
  method ParseToken(schema: Schema, tokens: seq<Token>, i: nat, st: ParseState)
    returns (r: Result<(ParseState, nat), ParseError>)
    requires i < |tokens| && |st.batch| > 0
    ensures r == Step(schema, tokens, i, st)
  {
    var batch, noOptionsMode := st.batch, st.noOptionsMode;
    var commands, options, positionalOptions := st.scope.commands, st.scope.options, st.scope.positionals;
    var t := tokens[i];
    if t.kind == EndOfOptions {
      noOptionsMode := true;
    } else if !noOptionsMode && (t.kind == LongOption || t.kind == ShortOption) {
      r := ResolveOption(schema, tokens, i, st);
      return;
    } else {
      var word := t.body;
      var command := FindOneByNames(commands, CommandNames, word);
      var hasPositionalOptions := |positionalOptions| > 0;
      if command.Some? || !hasPositionalOptions {
        if command.Some? {
          var params := Extract(command.value, schema);
          commands, options, positionalOptions := params.commands, params.options, params.positionals;
        } else {
          commands, options, positionalOptions := [], [], [];
        }
        batch := batch + [ResolvedCommand(word, word, [])];
      } else {
        var optionConfig := positionalOptions[0];
        positionalOptions := positionalOptions[1..];
        batch := AddToLast(batch, ResolvedOption(optionConfig.name, optionConfig.name, Some(word)));
      }
    }
    r := Ok((ParseState(batch, Scope(commands, options, positionalOptions), noOptionsMode), i + 1));
  }

  /** `parseArgs` as the source runs it: an indexed loop over the tokens that carries the
      current scope, the end-of-options flag and the growing batch from one iteration to
      the next, and stops at the first error. */
  method ParseArgs(args: seq<string>, schema: Schema) returns (r: Result<seq<ResolvedCommand>, ParseError>)
    ensures r == Parse(args, schema)
  {
    var defaultCommand := FindDefaultCommand(schema);
    if defaultCommand.None? {
      return Err(DefaultCommandMissing(DefaultCommandMessage));
    }
    var d := defaultCommand.value;
    var params := Extract(d, schema);
    var commands, options, positionalOptions := params.commands, params.options, params.positionals;
    var batch := [ResolvedCommand(d.name, d.name, [])];
    var noOptionsMode := false;
    var tokens := TokenizeArgs(args);
    ghost var outcome := Run(schema, tokens, 0, InitialState(schema, d));

    var i := 0;
    while i < |tokens|
      invariant 0 <= i <= |tokens| && |batch| > 0
      invariant Run(schema, tokens, i, ParseState(batch, Scope(commands, options, positionalOptions), noOptionsMode)) == outcome
      decreases |tokens| - i
    {
      var st := ParseState(batch, Scope(commands, options, positionalOptions), noOptionsMode);
      var stepped := ParseToken(schema, tokens, i, st);
      if stepped.Err? {
        return Err(stepped.error);
      }
      var next := stepped.value.0;
      batch, noOptionsMode := next.batch, next.noOptionsMode;
      commands, options, positionalOptions := next.scope.commands, next.scope.options, next.scope.positionals;
      i := stepped.value.1;
    }
    return Ok(batch);
  }
}
