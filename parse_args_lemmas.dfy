/** Properties of the tokenizer and the parser of `src/parseArgs.js`, proved about the
    reference functions `Tokenize`, `Run` and `Parse` that the methods `TokenizeArgs` and
    `ParseArgs` are proved equal to. */
module ParseArgsLemmas {
  import opened Common
  import opened Schema
  import opened ParseArgs

  // ---------------------------------------------------------------------------------
  // Tokenizer

  function Bodies(ts: seq<Token>): (r: seq<string>)
    ensures |r| == |ts| && forall k :: 0 <= k < |ts| ==> r[k] == ts[k].body
  {
    seq(|ts|, k requires 0 <= k < |ts| => ts[k].body)
  }

  /** Rebuilds the raw argument from the tokens it produced. */
  function Reassemble(ts: seq<Token>): string
  {
    if |ts| == 0 then ""
    else match ts[0].kind
      case LongOption => "--" + ts[0].body
      case EndOfOptions => ts[0].body
      case Value => ts[0].body
      case ShortOption => "-" + Concat(Bodies(ts))
  }

  lemma {:induction false} ConcatSingletons(ts: seq<Token>, chars: string)
    requires |ts| == |chars| && forall k :: 0 <= k < |ts| ==> ts[k].body == [chars[k]]
    ensures Concat(Bodies(ts)) == chars
  {
    if |ts| > 0 {
      ConcatSingletons(ts[1..], chars[1..]);
      assert Bodies(ts[1..]) == Bodies(ts)[1..];
      assert chars == [chars[0]] + chars[1..];
    }
  }

  /** Tokenizing an argument loses nothing but a bare `-`: that one argument produces no
      token, and every other argument is rebuilt exactly from its tokens. */
  lemma TokenizeArgRoundTrip(arg: string)
    ensures arg == "-" <==> TokenizeArg(arg) == []
    ensures arg != "-" ==> Reassemble(TokenizeArg(arg)) == arg
  {
    if |arg| > 0 && arg[0] == '-' && !(|arg| > 1 && arg[1] == '-') {
      if |arg| > 1 {
        ConcatSingletons(TokenizeArg(arg), arg[1..]);
        assert arg == "-" + arg[1..];
      } else {
        assert arg == "-";
      }
    } else if |arg| > 2 && arg[0] == '-' && arg[1] == '-' {
      assert arg == "--" + arg[2..];
    }
  }

  /** Each token keeps its raw argument; `-abc` gives one single-character short token per
      character after the dash, in order; any other argument gives exactly one token, of
      the kind its prefix selects. */
  lemma TokenizeArgShape(arg: string)
    ensures forall t :: t in TokenizeArg(arg) ==> t.arg == arg
    ensures |arg| > 2 && arg[..2] == "--" ==> TokenizeArg(arg) == [Token(LongOption, arg[2..], arg)]
    ensures arg == "--" ==> TokenizeArg(arg) == [Token(EndOfOptions, "--", "--")]
    ensures |arg| > 0 && arg[0] == '-' && !(|arg| > 1 && arg[1] == '-') ==>
              |TokenizeArg(arg)| == |arg| - 1
              && forall k :: 0 <= k < |arg| - 1 ==> TokenizeArg(arg)[k] == Token(ShortOption, [arg[k + 1]], arg)
    ensures (|arg| == 0 || arg[0] != '-') ==> TokenizeArg(arg) == [Token(Value, arg, arg)]
  {
    if |arg| >= 2 && arg[..2] == "--" {
      assert arg[0] == '-' && arg[1] == '-';
    }
  }

  /** Classification is local to each argument: tokenizing a concatenation of argument lists
      concatenates their token lists, so tokens come out in argument order. */
  lemma TokenizeSnoc(args: seq<string>, arg: string)
    ensures Tokenize(args + [arg]) == Tokenize(args) + TokenizeArg(arg)
  {
    FlatMapSnoc(args, arg, TokenizeArg);
  }

  lemma TokenizeAppend(a: seq<string>, b: seq<string>)
    ensures Tokenize(a + b) == Tokenize(a) + Tokenize(b)
  {
    FlatMapAppend(a, b, TokenizeArg);
  }

  // ---------------------------------------------------------------------------------
  // Option tokens

  lemma IndexOfSplit(n: string, v: string)
    requires '=' !in n
    ensures IndexOf(n + "=" + v, '=') == Some(|n|)
  {
    var s := n + "=" + v;
    assert s[|n|] == '=';
    var r := IndexOf(s, '=');
    assert r.Some?;
  }

  /** A long option `--name=value` takes exactly the text after the first `=` as its value
      (so `--a=` gives `""`), whatever the option's type, and the cursor moves one token. */
  lemma LongOptionTakesInlineValue(schema: Schema, toks: seq<Token>, i: nat, st: ParseState, n: string, v: string)
    requires i < |toks| && |st.batch| > 0 && !st.noOptionsMode
    requires toks[i].kind == LongOption && toks[i].body == n + "=" + v && n != "" && '=' !in n
    ensures Run(schema, toks, i, st)
            == Run(schema, toks, i + 1, st.(batch := AddToLast(st.batch, ResolvedOption(n, n, Some(v)))))
  {
    IndexOfSplit(n, v);
    var s := n + "=" + v;
    assert s[..|n|] == n;
    assert s[|n| + 1..] == v;
  }

  /** A long option without `=` has no value, even when the next token is a value. */
  lemma LongOptionWithoutValue(schema: Schema, toks: seq<Token>, i: nat, st: ParseState)
    requires i < |toks| && |st.batch| > 0 && !st.noOptionsMode
    requires toks[i].kind == LongOption && toks[i].body != "" && '=' !in toks[i].body
    ensures Run(schema, toks, i, st)
            == Run(schema, toks, i + 1, st.(batch := AddToLast(st.batch, ResolvedOption(toks[i].body, toks[i].body, None))))
  {
  }

  /** A long option with nothing before its first `=` (`--=x`) stops the parse with an
      input error naming the current entry. */
  lemma EmptyLongNameFails(schema: Schema, toks: seq<Token>, i: nat, st: ParseState)
    requires i < |toks| && |st.batch| > 0 && !st.noOptionsMode
    requires toks[i].kind == LongOption && (toks[i].body == "" || toks[i].body[0] == '=')
    ensures Run(schema, toks, i, st) == Err(InputError(EmptyNameMessage, st.batch[|st.batch| - 1]))
  {
    if toks[i].body != "" {
      assert IndexOf(toks[i].body, '=') == Some(0);
    }
  }

  /** A short option outside `[a-zA-Z0-9]` (the `=` of `-a=b`, say) stops the parse with an
      input error that quotes the character and the raw argument and names the current entry. */
  lemma BadShortOptionFails(schema: Schema, toks: seq<Token>, i: nat, st: ParseState)
    requires i < |toks| && |st.batch| > 0 && !st.noOptionsMode
    requires toks[i].kind == ShortOption && !IsShortName(toks[i].body)
    ensures Run(schema, toks, i, st)
            == Err(InputError(ShortOptionMessage(toks[i].body, toks[i].arg), st.batch[|st.batch| - 1]))
  {
  }

  /** The consume policy: an explicit `consume` wins; otherwise a boolean option does not
      consume and every other type does. */
  lemma ConsumePolicy(o: OptionDef)
    ensures o.consume.Some? ==> (Consumes(o) <==> o.consume.value)
    ensures o.consume.None? ==> (Consumes(o) <==> o.typ != Some("boolean"))
  {
  }

  /** A short option found in the current scope whose policy is to consume takes the next
      token as its value when that token is a value, and the cursor skips it. */
  lemma ShortOptionConsumesNextValue(schema: Schema, toks: seq<Token>, i: nat, st: ParseState, o: OptionDef)
    requires i + 1 < |toks| && |st.batch| > 0 && !st.noOptionsMode
    requires toks[i].kind == ShortOption && IsShortName(toks[i].body)
    requires FindOneByNames(st.scope.options, OptionNames, toks[i].body) == Some(o) && Consumes(o)
    requires toks[i + 1].kind == Value
    ensures Run(schema, toks, i, st)
            == Run(schema, toks, i + 2,
                   st.(batch := AddToLast(st.batch, ResolvedOption(toks[i].body, toks[i].body, Some(toks[i + 1].body)))))
  {
  }

  /** Otherwise a well-formed short option has no value and the cursor moves one token:
      an unknown short option never consumes. */
  lemma ShortOptionWithoutValue(schema: Schema, toks: seq<Token>, i: nat, st: ParseState)
    requires i < |toks| && |st.batch| > 0 && !st.noOptionsMode
    requires toks[i].kind == ShortOption && IsShortName(toks[i].body)
    requires match FindOneByNames(st.scope.options, OptionNames, toks[i].body)
             case None => true
             case Some(o) => !Consumes(o) || i + 1 == |toks| || toks[i + 1].kind != Value
    ensures Run(schema, toks, i, st)
            == Run(schema, toks, i + 1, st.(batch := AddToLast(st.batch, ResolvedOption(toks[i].body, toks[i].body, None))))
  {
  }

  // ---------------------------------------------------------------------------------
  // Bare words

  /** A bare word that names a sub-command (by name or alias) opens a new entry named by the
      word as typed, and the scope becomes the sub-command's. */
  lemma BareWordDescends(schema: Schema, toks: seq<Token>, i: nat, st: ParseState, c: CommandDef)
    requires i < |toks| && |st.batch| > 0 && toks[i].kind != EndOfOptions
    requires st.noOptionsMode || toks[i].kind == Value
    requires FindOneByNames(st.scope.commands, CommandNames, toks[i].body) == Some(c)
    ensures Run(schema, toks, i, st)
            == Run(schema, toks, i + 1, st.(batch := st.batch + [ResolvedCommand(toks[i].body, toks[i].body, [])],
                                            scope := Extract(c, schema)))
  {
    var next := st.(batch := st.batch + [ResolvedCommand(toks[i].body, toks[i].body, [])], scope := Extract(c, schema));
    assert ApplyBareWord(schema, st, toks[i].body) == next;
    assert Step(schema, toks, i, st) == Ok((next, i + 1));
  }

  /** An unmatched bare word with no positional left opens an entry named by the word with
      an empty scope. */
  lemma BareWordOpensUnknown(schema: Schema, toks: seq<Token>, i: nat, st: ParseState)
    requires i < |toks| && |st.batch| > 0 && toks[i].kind != EndOfOptions
    requires st.noOptionsMode || toks[i].kind == Value
    requires forall c :: c in st.scope.commands ==> toks[i].body !in CommandNames(c)
    requires st.scope.positionals == []
    ensures Run(schema, toks, i, st)
            == Run(schema, toks, i + 1, st.(batch := st.batch + [ResolvedCommand(toks[i].body, toks[i].body, [])],
                                            scope := Scope([], [], [])))
  {
  }

  /** Appends `os` to the options of the last entry. */
  function AppendToLast(batch: seq<ResolvedCommand>, os: seq<ResolvedOption>): seq<ResolvedCommand>
    requires |batch| > 0
  {
    batch[..|batch| - 1] + [batch[|batch| - 1].(options := batch[|batch| - 1].options + os)]
  }

  /** The bindings of the first `n` positionals to the values at `toks[i..i+n]`. */
  function Bindings(ps: seq<OptionDef>, toks: seq<Token>, i: nat, n: nat): seq<ResolvedOption>
    requires n <= |ps| && i + n <= |toks|
  {
    seq(n, k requires 0 <= k < n => ResolvedOption(ps[k].name, ps[k].name, Some(toks[i + k].body)))
  }

  /** One step of `Run`: a successful step continues from the state and cursor it yields. */
  lemma RunUnfold(schema: Schema, toks: seq<Token>, i: nat, st: ParseState)
    requires i < |toks| && |st.batch| > 0 && Step(schema, toks, i, st).Ok?
    ensures Run(schema, toks, i, st)
            == Run(schema, toks, Step(schema, toks, i, st).value.1, Step(schema, toks, i, st).value.0)
  {
  }

  lemma AppendAfterAdd(batch: seq<ResolvedCommand>, o: ResolvedOption, os: seq<ResolvedOption>)
    requires |batch| > 0
    ensures AppendToLast(AddToLast(batch, o), os) == AppendToLast(batch, [o] + os)
  {
    var last := batch[|batch| - 1];
    assert last.options + [o] + os == last.options + ([o] + os);
  }

  /** The state after the first `n` queued positionals are bound to the values at
      `toks[i..i+n]`. */
  function Bound(st: ParseState, toks: seq<Token>, i: nat, n: nat): ParseState
    requires |st.batch| > 0 && n <= |st.scope.positionals| && i + n <= |toks|
  {
    st.(batch := AppendToLast(st.batch, Bindings(st.scope.positionals, toks, i, n)),
        scope := st.scope.(positionals := st.scope.positionals[n..]))
  }

  /** A token the loop hands to the bare-word branch: a value, or, in end-of-options mode,
      any token but a marker. */
  predicate BareWordToken(t: Token, noOptionsMode: bool)
  {
    t.kind != EndOfOptions && (noOptionsMode || t.kind == Value)
  }

  /** The `n` tokens from `i` on are bare words, in the given mode, that name no
      sub-command of `commands`. */
  predicate UnmatchedWords(commands: seq<CommandDef>, noOptionsMode: bool, toks: seq<Token>, i: nat, n: nat)
    requires i + n <= |toks|
    decreases n
  {
    n == 0
    || (BareWordToken(toks[i], noOptionsMode) && FindOneByNames(commands, CommandNames, toks[i].body).None?
        && UnmatchedWords(commands, noOptionsMode, toks, i + 1, n - 1))
  }

  /** `UnmatchedWords` says of each of the `n` tokens that it is a bare word naming no
      sub-command. */
  lemma {:induction false} UnmatchedWordsIff(commands: seq<CommandDef>, noOptionsMode: bool, toks: seq<Token>, i: nat, n: nat)
    requires i + n <= |toks|
    ensures UnmatchedWords(commands, noOptionsMode, toks, i, n)
            <==> forall k :: i <= k < i + n ==>
                   (BareWordToken(toks[k], noOptionsMode) && FindOneByNames(commands, CommandNames, toks[k].body).None?)
    decreases n
  {
    if n > 0 {
      UnmatchedWordsIff(commands, noOptionsMode, toks, i + 1, n - 1);
    }
  }

  /** The positional queue is a FIFO: `n` unmatched bare words bind the first `n` queued
      positional options in declaration order, each as `{name, inputName: name, value}`,
      and leave the rest of the queue. */
  lemma {:induction false} PositionalsBindInOrder(schema: Schema, toks: seq<Token>, i: nat, st: ParseState, n: nat)
    requires i + n <= |toks| && |st.batch| > 0 && n <= |st.scope.positionals|
    requires UnmatchedWords(st.scope.commands, st.noOptionsMode, toks, i, n)
    ensures Run(schema, toks, i, st) == Run(schema, toks, i + n, Bound(st, toks, i, n))
    decreases n
  {
    if n == 0 {
      BindNoneState(toks, i, st);
    } else {
      var st1 := Bound(st, toks, i, 1);
      assert st1.scope.commands == st.scope.commands && st1.noOptionsMode == st.noOptionsMode;
      PositionalsBindInOrder(schema, toks, i + 1, st1, n - 1);
      BindOneMore(schema, toks, i, st, n);
    }
  }

  lemma BindNoneState(toks: seq<Token>, i: nat, st: ParseState)
    requires i <= |toks| && |st.batch| > 0
    ensures Bound(st, toks, i, 0) == st
  {
    AppendNothing(st.batch);
    assert Bindings(st.scope.positionals, toks, i, 0) == [];
    assert st.scope.positionals[0..] == st.scope.positionals;
  }

  /** Binding the front positional and then `n - 1` more reaches the state of binding `n`. */
  lemma BindOneMore(schema: Schema, toks: seq<Token>, i: nat, st: ParseState, n: nat)
    requires 0 < n && i + n <= |toks| && |st.batch| > 0 && n <= |st.scope.positionals|
    requires BareWordToken(toks[i], st.noOptionsMode) && FindOneByNames(st.scope.commands, CommandNames, toks[i].body).None?
    requires Run(schema, toks, i + 1, Bound(st, toks, i, 1))
             == Run(schema, toks, i + 1 + (n - 1), Bound(Bound(st, toks, i, 1), toks, i + 1, n - 1))
    ensures Run(schema, toks, i, st) == Run(schema, toks, i + n, Bound(st, toks, i, n))
  {
    assert i + 1 + (n - 1) == i + n;
    BindFirst(schema, toks, i, st);
    BindRestState(toks, i, st, n);
  }

  /** Binding one positional is the step `Run` takes on an unmatched value. */
  lemma BindFirst(schema: Schema, toks: seq<Token>, i: nat, st: ParseState)
    requires i < |toks| && |st.batch| > 0 && |st.scope.positionals| > 0
    requires BareWordToken(toks[i], st.noOptionsMode) && FindOneByNames(st.scope.commands, CommandNames, toks[i].body).None?
    ensures Run(schema, toks, i, st) == Run(schema, toks, i + 1, Bound(st, toks, i, 1))
  {
    var ps := st.scope.positionals;
    BindFirstPositional(schema, toks, i, st);
    AppendNothing(AddToLast(st.batch, ResolvedOption(ps[0].name, ps[0].name, Some(toks[i].body))));
    AppendAfterAdd(st.batch, ResolvedOption(ps[0].name, ps[0].name, Some(toks[i].body)), []);
    assert Bindings(ps, toks, i, 1) == [ResolvedOption(ps[0].name, ps[0].name, Some(toks[i].body))];
  }

  lemma BindRestState(toks: seq<Token>, i: nat, st: ParseState, n: nat)
    requires 0 < n && i + n <= |toks| && |st.batch| > 0 && n <= |st.scope.positionals|
    ensures Bound(Bound(st, toks, i, 1), toks, i + 1, n - 1) == Bound(st, toks, i, n)
  {
    var ps := st.scope.positionals;
    var b0 := ResolvedOption(ps[0].name, ps[0].name, Some(toks[i].body));
    var st1 := Bound(st, toks, i, 1);
    assert Bindings(ps, toks, i, 1) == [b0];
    AppendNothing(AddToLast(st.batch, b0));
    AppendAfterAdd(st.batch, b0, []);
    assert st1.batch == AddToLast(st.batch, b0);
    assert st1.scope.positionals == ps[1..];
    BindingsCons(ps, toks, i, n);
    assert ps[1..][n - 1..] == ps[n..];
    AppendAfterAdd(st.batch, b0, Bindings(ps[1..], toks, i + 1, n - 1));
  }

  lemma AppendNothing(batch: seq<ResolvedCommand>)
    requires |batch| > 0
    ensures AppendToLast(batch, []) == batch
  {
    var last := batch[|batch| - 1];
    assert last.(options := last.options + []) == last;
  }

  lemma BindingsCons(ps: seq<OptionDef>, toks: seq<Token>, i: nat, n: nat)
    requires 0 < n <= |ps| && i + n <= |toks|
    ensures [ResolvedOption(ps[0].name, ps[0].name, Some(toks[i].body))] + Bindings(ps[1..], toks, i + 1, n - 1)
            == Bindings(ps, toks, i, n)
  {
  }

  /** An unmatched bare word binds the front of a non-empty positional queue. */
  lemma BindFirstPositional(schema: Schema, toks: seq<Token>, i: nat, st: ParseState)
    requires i < |toks| && |st.batch| > 0 && |st.scope.positionals| > 0
    requires BareWordToken(toks[i], st.noOptionsMode) && FindOneByNames(st.scope.commands, CommandNames, toks[i].body).None?
    ensures Run(schema, toks, i, st)
            == Run(schema, toks, i + 1,
                   st.(batch := AddToLast(st.batch, ResolvedOption(st.scope.positionals[0].name, st.scope.positionals[0].name, Some(toks[i].body))),
                       scope := st.scope.(positionals := st.scope.positionals[1..])))
  {
    RunUnfold(schema, toks, i, st);
  }

  // ---------------------------------------------------------------------------------
  // End of options

  /** The bodies of the tokens from `i` on, markers left out. */
  function NonMarkerBodies(toks: seq<Token>, i: nat): seq<string>
    requires i <= |toks|
    decreases |toks| - i
  {
    if i == |toks| then []
    else (if toks[i].kind == EndOfOptions then [] else [toks[i].body]) + NonMarkerBodies(toks, i + 1)
  }

  /** The bare-word rule applied to each word in turn. */
  function Words(schema: Schema, ws: seq<string>, st: ParseState): (r: ParseState)
    requires |st.batch| > 0
    ensures |r.batch| > 0 && r.noOptionsMode == st.noOptionsMode
  {
    if |ws| == 0 then st else Words(schema, ws[1..], ApplyBareWord(schema, st, ws[0]))
  }

  /** Once in end-of-options mode the parser cannot fail, the mode stays on, a further `--`
      is swallowed, and every other token is a bare word carrying its stripped body (`x` for
      `-x`, `a=b` for `--a=b`), which may still name a sub-command. */
  lemma {:induction false} AfterEndOfOptions(schema: Schema, toks: seq<Token>, i: nat, st: ParseState)
    requires i <= |toks| && |st.batch| > 0 && st.noOptionsMode
    ensures Run(schema, toks, i, st) == Ok(Words(schema, NonMarkerBodies(toks, i), st))
    decreases |toks| - i
  {
    if i < |toks| {
      if toks[i].kind == EndOfOptions {
        assert st.(noOptionsMode := true) == st;
        AfterEndOfOptions(schema, toks, i + 1, st);
        assert NonMarkerBodies(toks, i) == NonMarkerBodies(toks, i + 1);
      } else {
        var st1 := ApplyBareWord(schema, st, toks[i].body);
        assert Run(schema, toks, i, st) == Run(schema, toks, i + 1, st1);
        AfterEndOfOptions(schema, toks, i + 1, st1);
        var ws := NonMarkerBodies(toks, i);
        assert ws[0] == toks[i].body && ws[1..] == NonMarkerBodies(toks, i + 1);
      }
    }
  }

  /** A `--` marker emits nothing and switches to end-of-options mode for the rest. */
  lemma MarkerSwitchesToWords(schema: Schema, toks: seq<Token>, i: nat, st: ParseState)
    requires i < |toks| && |st.batch| > 0 && toks[i].kind == EndOfOptions
    ensures Run(schema, toks, i, st) == Ok(Words(schema, NonMarkerBodies(toks, i + 1), st.(noOptionsMode := true)))
    ensures Words(schema, NonMarkerBodies(toks, i + 1), st.(noOptionsMode := true)).noOptionsMode
  {
    AfterEndOfOptions(schema, toks, i + 1, st.(noOptionsMode := true));
  }

  // ---------------------------------------------------------------------------------
  // Errors

  /** An option token the parser rejects: a short option outside `[a-zA-Z0-9]`, or a long
      option with an empty name. */
  predicate Malformed(t: Token)
  {
    (t.kind == ShortOption && !IsShortName(t.body)) || (t.kind == LongOption && OptionNameOf(t) == "")
  }

  predicate NoMarkerBetween(toks: seq<Token>, i: nat, j: nat)
    requires i <= j <= |toks|
  {
    forall k :: i <= k < j ==> toks[k].kind != EndOfOptions
  }

  lemma NoOptionsNeverFails(schema: Schema, toks: seq<Token>, i: nat, st: ParseState)
    requires i <= |toks| && |st.batch| > 0 && st.noOptionsMode
    ensures Run(schema, toks, i, st).Ok?
  {
    AfterEndOfOptions(schema, toks, i, st);
  }

  /** The parse fails exactly when an option token before the first `--` is malformed;
      unknown commands and options never fail it. */
  lemma {:induction false} RunFailsIffMalformed(schema: Schema, toks: seq<Token>, i: nat, st: ParseState)
    requires i <= |toks| && |st.batch| > 0
    ensures Run(schema, toks, i, st).Err? <==> !st.noOptionsMode && MalformedAhead(toks, i)
    decreases |toks| - i, 1
  {
    if i == |toks| {
    } else if st.noOptionsMode {
      NoOptionsNeverFails(schema, toks, i, st);
    } else if toks[i].kind == EndOfOptions {
      MarkerHidesMalformed(schema, toks, i, st);
    } else if Malformed(toks[i]) {
      assert Run(schema, toks, i, st).Err?;
      assert NoMarkerBetween(toks, i, i);
    } else {
      WellFormedTokenPasses(schema, toks, i, st);
    }
  }

  /** Some option token from `i` on is malformed, with no marker before it. */
  predicate MalformedAhead(toks: seq<Token>, i: nat)
    requires i <= |toks|
  {
    exists j :: i <= j < |toks| && Malformed(toks[j]) && NoMarkerBetween(toks, i, j)
  }

  lemma MarkerHidesMalformed(schema: Schema, toks: seq<Token>, i: nat, st: ParseState)
    requires i < |toks| && |st.batch| > 0 && toks[i].kind == EndOfOptions
    ensures Run(schema, toks, i, st).Ok? && !MalformedAhead(toks, i)
  {
    RunUnfold(schema, toks, i, st);
    NoOptionsNeverFails(schema, toks, i + 1, st.(noOptionsMode := true));
    forall j | i <= j < |toks| && Malformed(toks[j])
      ensures !NoMarkerBetween(toks, i, j)
    {
      assert j != i;
    }
  }

  /** A well-formed token outside end-of-options mode steps without error. */
  lemma StepOverWellFormed(schema: Schema, toks: seq<Token>, i: nat, st: ParseState)
    requires i < |toks| && |st.batch| > 0 && !st.noOptionsMode
    requires toks[i].kind != EndOfOptions && !Malformed(toks[i])
    ensures Step(schema, toks, i, st).Ok?
  {
    if toks[i].kind == LongOption || toks[i].kind == ShortOption {
      WellFormedOptionApplies(schema, toks, i, st);
    }
  }

  /** A step from a well-formed token passes over that token and at most one value, so
      over no malformed token and no marker. */
  lemma CleanStepRange(toks: seq<Token>, i: nat, j: nat)
    requires i < |toks| && toks[i].kind != EndOfOptions && !Malformed(toks[i])
    requires j == i + 1 || (j == i + 2 && i + 1 < |toks| && toks[i + 1].kind == Value)
    ensures forall k :: i <= k < j ==> !Malformed(toks[k]) && toks[k].kind != EndOfOptions
  {
  }

  lemma WellFormedOptionApplies(schema: Schema, toks: seq<Token>, i: nat, st: ParseState)
    requires i < |toks| && |st.batch| > 0
    requires (toks[i].kind == LongOption || toks[i].kind == ShortOption) && !Malformed(toks[i])
    ensures ApplyOption(schema, toks, i, st).Ok?
  {
  }

  lemma {:induction false} WellFormedTokenPasses(schema: Schema, toks: seq<Token>, i: nat, st: ParseState)
    requires i < |toks| && |st.batch| > 0 && !st.noOptionsMode
    requires toks[i].kind != EndOfOptions && !Malformed(toks[i])
    ensures Run(schema, toks, i, st).Err? <==> MalformedAhead(toks, i)
    decreases |toks| - i, 0
  {
    StepOverWellFormed(schema, toks, i, st);
    var step := Step(schema, toks, i, st);
    CleanStepRange(toks, i, step.value.1);
    RunUnfold(schema, toks, i, st);
    RunFailsIffMalformed(schema, toks, step.value.1, step.value.0);
    ShiftMalformedRange(toks, i, step.value.1);
  }

  /** When the tokens in `[i, j)` are neither malformed nor markers, a malformed token
      reachable from `i` is one reachable from `j`, and back. */
  lemma ShiftMalformedRange(toks: seq<Token>, i: nat, j: nat)
    requires i < j <= |toks|
    requires forall k :: i <= k < j ==> !Malformed(toks[k]) && toks[k].kind != EndOfOptions
    ensures MalformedAhead(toks, i) <==> MalformedAhead(toks, j)
  {
    if exists m :: i <= m < |toks| && Malformed(toks[m]) && NoMarkerBetween(toks, i, m) {
      var m :| i <= m < |toks| && Malformed(toks[m]) && NoMarkerBetween(toks, i, m);
      assert j <= m && NoMarkerBetween(toks, j, m);
    }
    if exists m :: j <= m < |toks| && Malformed(toks[m]) && NoMarkerBetween(toks, j, m) {
      var m :| j <= m < |toks| && Malformed(toks[m]) && NoMarkerBetween(toks, j, m);
      assert NoMarkerBetween(toks, i, m);
    }
  }

  // ---------------------------------------------------------------------------------
  // The batch

  /** `after` grew from `before` by appending only: the entries before the last are
      untouched, the last keeps its names and only gains options, and new entries follow. */
  predicate Extends(before: seq<ResolvedCommand>, after: seq<ResolvedCommand>)
    requires |before| > 0
  {
    && |before| <= |after|
    && after[..|before| - 1] == before[..|before| - 1]
    && after[|before| - 1].name == before[|before| - 1].name
    && after[|before| - 1].inputName == before[|before| - 1].inputName
    && before[|before| - 1].options <= after[|before| - 1].options
  }

  /** Every entry and every resolved option carries its name as typed: `name == inputName`. */
  predicate NamesAsTyped(batch: seq<ResolvedCommand>)
  {
    forall k :: 0 <= k < |batch| ==>
      batch[k].name == batch[k].inputName
      && forall m :: 0 <= m < |batch[k].options| ==> batch[k].options[m].name == batch[k].options[m].inputName
  }

  lemma ExtendsTransitive(a: seq<ResolvedCommand>, b: seq<ResolvedCommand>, c: seq<ResolvedCommand>)
    requires |a| > 0 && |b| > 0 && Extends(a, b) && Extends(b, c)
    ensures Extends(a, c)
  {
    assert c[..|a| - 1] == c[..|b| - 1][..|a| - 1];
    assert b[..|a| - 1] == b[..|b| - 1][..|a| - 1];
    if |a| < |b| {
      assert b[|a| - 1] == b[..|b| - 1][|a| - 1];
      assert c[|a| - 1] == c[..|b| - 1][|a| - 1];
    }
  }

  /** One token never rewrites the batch: it grows it by the source's two pushes only, and
      by one entry exactly when it is a bare word that does not bind a positional. */
  lemma StepExtendsBatch(schema: Schema, toks: seq<Token>, i: nat, st: ParseState)
    requires i < |toks| && |st.batch| > 0 && Step(schema, toks, i, st).Ok?
    ensures Extends(st.batch, Step(schema, toks, i, st).value.0.batch)
    ensures NamesAsTyped(st.batch) ==> NamesAsTyped(Step(schema, toks, i, st).value.0.batch)
    ensures |Step(schema, toks, i, st).value.0.batch|
            == |st.batch| + (if toks[i].kind != EndOfOptions && (st.noOptionsMode || toks[i].kind == Value)
                                && !ClassifyBareWord(st.scope, toks[i].body).BindPositional? then 1 else 0)
  {
    var t := toks[i];
    if t.kind == EndOfOptions {
      KeepExtends(st.batch);
    } else if !st.noOptionsMode && (t.kind == LongOption || t.kind == ShortOption) {
      var name := OptionNameOf(t);
      AddExtends(st.batch, ResolvedOption(name, name, OptionValue(toks, i, st)));
    } else {
      match ClassifyBareWord(st.scope, t.body)
      case BindPositional(o) =>
        AddExtends(st.batch, ResolvedOption(o.name, o.name, Some(t.body)));
      case _ =>
        PushExtends(st.batch, ResolvedCommand(t.body, t.body, []));
    }
  }

  lemma KeepExtends(batch: seq<ResolvedCommand>)
    requires |batch| > 0
    ensures Extends(batch, batch)
  {
  }

  /** Adding an option to the last entry extends the batch, keeping its length. */
  lemma AddExtends(batch: seq<ResolvedCommand>, o: ResolvedOption)
    requires |batch| > 0
    ensures Extends(batch, AddToLast(batch, o))
    ensures NamesAsTyped(batch) && o.name == o.inputName ==> NamesAsTyped(AddToLast(batch, o))
  {
    var after := AddToLast(batch, o);
    var n := |batch|;
    if NamesAsTyped(batch) && o.name == o.inputName {
      forall k | 0 <= k < |after|
        ensures after[k].name == after[k].inputName
        ensures forall m :: 0 <= m < |after[k].options| ==> after[k].options[m].name == after[k].options[m].inputName
      {
        if k < n - 1 {
          assert after[k] == after[..n - 1][k] == batch[..n - 1][k];
        } else {
          assert after[k].options == batch[k].options + [o];
        }
      }
    }
  }

  /** Pushing a new entry extends the batch by one. */
  lemma PushExtends(batch: seq<ResolvedCommand>, c: ResolvedCommand)
    requires |batch| > 0
    ensures Extends(batch, batch + [c])
    ensures NamesAsTyped(batch) && c.name == c.inputName && c.options == [] ==> NamesAsTyped(batch + [c])
  {
    var n := |batch|;
    assert (batch + [c])[..n - 1] == batch[..n - 1];
    assert (batch + [c])[n - 1] == batch[n - 1];
  }

  /** A whole run appends only, and keeps every name equal to its input name. */
  lemma {:induction false} RunExtendsBatch(schema: Schema, toks: seq<Token>, i: nat, st: ParseState)
    requires i <= |toks| && |st.batch| > 0 && Run(schema, toks, i, st).Ok?
    ensures Extends(st.batch, Run(schema, toks, i, st).value.batch)
    ensures NamesAsTyped(st.batch) ==> NamesAsTyped(Run(schema, toks, i, st).value.batch)
    decreases |toks| - i
  {
    if i == |toks| {
      assert st.batch[..|st.batch| - 1] == st.batch[..|st.batch| - 1];
    } else {
      var step := Step(schema, toks, i, st);
      var st1, j := step.value.0, step.value.1;
      StepExtendsBatch(schema, toks, i, st);
      RunExtendsBatch(schema, toks, j, st1);
      ExtendsTransitive(st.batch, st1.batch, Run(schema, toks, j, st1).value.batch);
    }
  }

  /** Every error a run raises is an input error. */
  lemma {:induction false} RunErrorsAreInputErrors(schema: Schema, toks: seq<Token>, i: nat, st: ParseState)
    requires i <= |toks| && |st.batch| > 0
    ensures Run(schema, toks, i, st).Err? ==> Run(schema, toks, i, st).error.InputError?
    decreases |toks| - i
  {
    if i < |toks| && Step(schema, toks, i, st).Ok? {
      RunUnfold(schema, toks, i, st);
      RunErrorsAreInputErrors(schema, toks, Step(schema, toks, i, st).value.1, Step(schema, toks, i, st).value.0);
    }
  }

  /** `parseArgs` raises the plain "no default command" error exactly when the schema has no
      default command; otherwise a successful batch starts with the default command's entry
      `{name: default.name, inputName: default.name}` and every name in it is as typed. */
  lemma ParseBatchShape(args: seq<string>, schema: Schema)
    ensures Parse(args, schema).Err? && Parse(args, schema).error.DefaultCommandMissing?
            <==> FindDefaultCommand(schema).None?
    ensures Parse(args, schema).Ok? ==>
              var b := Parse(args, schema).value;
              var d := FindDefaultCommand(schema).value;
              |b| >= 1 && b[0].name == d.name && b[0].inputName == d.name && NamesAsTyped(b)
  {
    match FindDefaultCommand(schema)
    case None =>
    case Some(d) =>
      var toks := Tokenize(args);
      var st := InitialState(schema, d);
      RunErrorsAreInputErrors(schema, toks, 0, st);
      if Run(schema, toks, 0, st).Ok? {
        RunExtendsBatch(schema, toks, 0, st);
        var b := Run(schema, toks, 0, st).value.batch;
        assert b[0].name == d.name;
      }
  }
}
