/** Worked inputs for `parseArgs` on a small schema: a default root command `app` with a
    required positional option `file`, and a sub-command `build` with a boolean option
    `verbose` (alias `v`).

    Each example is proved one token at a time with the lemmas of `ParseArgsLemmas`. The
    schema is a parameter equal to `AppSchema`, rather than the constant itself, so that the
    verifier follows those steps instead of evaluating the whole parse of a constant. */
module ParseArgsExamples {
  import opened Common
  import opened Schema
  import opened ParseArgs
  import opened ParseArgsLemmas

  const FileOption := OptionDef("app.file", "file", [], [], None, true, true, None, None, false)
  const VerboseOption := OptionDef("build.verbose", "verbose", ["v"], [], None, false, false, Some("boolean"), None, false)
  const Build := CommandDef("build", "build", [], [], None, [], ["build.verbose"], None, false, false)
  const App := CommandDef("app", "app", [], [], None, ["build"], ["app.file"], None, true, false)
  const AppSchema := Schema([App, Build], [FileOption, VerboseOption])

  const AppEntry := ResolvedCommand("app", "app", [])
  const BuildEntry := ResolvedCommand("build", "build", [])

  lemma AppScope()
    ensures FindDefaultCommand(AppSchema) == Some(App)
    ensures Extract(App, AppSchema) == Scope([Build], [FileOption], [FileOption])
    ensures Extract(Build, AppSchema) == Scope([], [VerboseOption], [])
  {
    BuildScope();
    assert FindById(AppSchema.commands, CommandId, "build") == Some(Build) by {
      assert AppSchema.commands[1..] == [Build];
    }
    assert FindByIds(AppSchema.options, OptionId, App.options) == [FileOption];
    assert FindByIds(AppSchema.commands, CommandId, App.commands) == [Build];
  }

  lemma BuildScope()
    ensures Extract(Build, AppSchema) == Scope([], [VerboseOption], [])
  {
    assert FindById(AppSchema.options, OptionId, "build.verbose") == Some(VerboseOption) by {
      assert AppSchema.options[1..] == [VerboseOption];
    }
    assert FindByIds(AppSchema.options, OptionId, Build.options) == [VerboseOption];
  }

  /** The state after the root entry is opened. */
  function RootState(): ParseState
  {
    ParseState([AppEntry], Scope([Build], [FileOption], [FileOption]), false)
  }

  /** The state after `build`. */
  function BuildState(): ParseState
  {
    ParseState([AppEntry, BuildEntry], Scope([], [VerboseOption], []), false)
  }

  function Outcome(r: Result<ParseState, ParseError>): Result<seq<ResolvedCommand>, ParseError>
  {
    match r
    case Ok(st) => Ok(st.batch)
    case Err(e) => Err(e)
  }

  lemma ParseFromRoot(args: seq<string>, schema: Schema, root: ParseState)
    requires schema == AppSchema && root == RootState()
    ensures Parse(args, schema) == Outcome(Run(schema, Tokenize(args), 0, root))
  {
    AppScope();
  }

  lemma TokenizeOne(a: string)
    ensures Tokenize([a]) == TokenizeArg(a)
  {
    TokenizeSnoc([], a);
    assert [] + [a] == [a];
  }

  lemma TokenizeTwo(a: string, b: string)
    ensures Tokenize([a, b]) == TokenizeArg(a) + TokenizeArg(b)
  {
    TokenizeOne(a);
    TokenizeSnoc([a], b);
    assert [a] + [b] == [a, b];
  }

  lemma TokenizeThree(a: string, b: string, c: string)
    ensures Tokenize([a, b, c]) == TokenizeArg(a) + TokenizeArg(b) + TokenizeArg(c)
  {
    TokenizeTwo(a, b);
    TokenizeSnoc([a, b], c);
    assert [a, b] + [c] == [a, b, c];
  }

  lemma AddToSingleton(c: ResolvedCommand, o: ResolvedOption)
    ensures AddToLast([c], o) == [c.(options := c.options + [o])]
  {
  }

  lemma AddToPair(c: ResolvedCommand, d: ResolvedCommand, o: ResolvedOption)
    ensures AddToLast([c, d], o) == [c, d.(options := d.options + [o])]
  {
    assert [c, d][..1] == [c];
  }

  lemma DescendIntoBuild(schema: Schema, toks: seq<Token>, root: ParseState)
    requires schema == AppSchema && root == RootState()
    requires |toks| > 0 && toks[0].kind == Value && toks[0].body == "build"
    ensures Run(schema, toks, 0, root) == Run(schema, toks, 1, BuildState())
  {
    BuildFound(root);
    BareWordDescends(schema, toks, 0, root, Build);
    BuildStateReached(schema, root, toks[0].body);
  }

  lemma BuildFound(root: ParseState)
    requires root == RootState()
    ensures FindOneByNames(root.scope.commands, CommandNames, "build") == Some(Build)
  {
    assert FindOneByNames([Build], CommandNames, "build") == Some(Build);
  }

  lemma BuildStateReached(schema: Schema, root: ParseState, w: string)
    requires schema == AppSchema && root == RootState() && w == "build"
    ensures root.(batch := root.batch + [ResolvedCommand(w, w, [])], scope := Extract(Build, schema)) == BuildState()
  {
    BuildScope();
    Pair(AppEntry, BuildEntry);
  }

  lemma Pair<T>(a: T, b: T)
    ensures [a] + [b] == [a, b]
  {
  }

  // ---------------------------------------------------------------------------------

  /** A word that names no sub-command fills the root's positional `file`. */
  lemma PositionalExample(w: string, schema: Schema)
    requires |w| > 0 && w[0] != '-' && w != "build" && schema == AppSchema
    ensures Parse([w], schema) == Ok([ResolvedCommand("app", "app", [ResolvedOption("file", "file", Some(w))])])
  {
    var toks := [Token(Value, w, w)];
    TokenizeOne(w);
    ParseFromRoot([w], schema, RootState());
    PositionalStep(schema, w, toks, RootState());
  }

  lemma PositionalStep(schema: Schema, w: string, toks: seq<Token>, root: ParseState)
    requires w != "build" && toks == [Token(Value, w, w)] && root == RootState()
    ensures Run(schema, toks, 0, root)
            == Ok(ParseState([ResolvedCommand("app", "app", [ResolvedOption("file", "file", Some(w))])],
                             Scope([Build], [FileOption], []), false))
  {
    assert FindOneByNames([Build], CommandNames, w) == None;
    BindFirstPositional(schema, toks, 0, root);
    var o := ResolvedOption("file", "file", Some(w));
    AddToSingleton(AppEntry, o);
    assert [] + [o] == [o];
    assert [FileOption][1..] == [];
    var st1 := ParseState([ResolvedCommand("app", "app", [o])], Scope([Build], [FileOption], []), false);
    assert root.(batch := AddToLast(root.batch, o), scope := root.scope.(positionals := [])) == st1;
  }

  /** `build -v w`: the sub-command opens a new entry; the boolean short option takes no
      value, so the word after it opens an entry of its own. */
  lemma ShortBooleanExample(w: string, schema: Schema)
    requires |w| > 0 && w[0] != '-' && schema == AppSchema
    ensures Parse(["build", "-v", w], schema)
            == Ok([AppEntry, ResolvedCommand("build", "build", [ResolvedOption("v", "v", None)]), ResolvedCommand(w, w, [])])
  {
    var toks := [Token(Value, "build", "build"), Token(ShortOption, "v", "-v"), Token(Value, w, w)];
    ShortBooleanTokens(w);
    ParseFromRoot(["build", "-v", w], schema, RootState());
    ShortBooleanRun(schema, w, toks, RootState());
  }

  lemma ShortBooleanTokens(w: string)
    requires |w| > 0 && w[0] != '-'
    ensures Tokenize(["build", "-v", w]) == [Token(Value, "build", "build"), Token(ShortOption, "v", "-v"), Token(Value, w, w)]
  {
    TokenizeThree("build", "-v", w);
    assert TokenizeArg("-v") == [Token(ShortOption, "v", "-v")];
  }

  lemma ShortBooleanRun(schema: Schema, w: string, toks: seq<Token>, root: ParseState)
    requires schema == AppSchema && root == RootState()
    requires toks == [Token(Value, "build", "build"), Token(ShortOption, "v", "-v"), Token(Value, w, w)]
    ensures Run(schema, toks, 0, root)
            == Ok(ParseState([AppEntry, ResolvedCommand("build", "build", [ResolvedOption("v", "v", None)]), ResolvedCommand(w, w, [])],
                             Scope([], [], []), false))
  {
    DescendIntoBuild(schema, toks, root);
    ShortFlagSteps(schema, w, toks, BuildState());
  }

  lemma ShortFlagSteps(schema: Schema, w: string, toks: seq<Token>, st1: ParseState)
    requires toks == [Token(Value, "build", "build"), Token(ShortOption, "v", "-v"), Token(Value, w, w)]
    requires st1 == BuildState()
    ensures Run(schema, toks, 1, st1)
            == Ok(ParseState([AppEntry, ResolvedCommand("build", "build", [ResolvedOption("v", "v", None)]), ResolvedCommand(w, w, [])],
                             Scope([], [], []), false))
  {
    var v := ResolvedOption("v", "v", None);
    assert FindOneByNames([VerboseOption], OptionNames, "v") == Some(VerboseOption);
    ShortOptionWithoutValue(schema, toks, 1, st1);
    AddToPair(AppEntry, BuildEntry, v);
    assert [] + [v] == [v];
    var st2 := st1.(batch := [AppEntry, ResolvedCommand("build", "build", [v])]);
    assert st1.(batch := AddToLast(st1.batch, v)) == st2;
    assert Run(schema, toks, 1, st1) == Run(schema, toks, 2, st2);
    BareWordOpensUnknown(schema, toks, 2, st2);
    var st3 := ParseState([AppEntry, ResolvedCommand("build", "build", [v]), ResolvedCommand(w, w, [])], Scope([], [], []), false);
    assert st2.batch + [ResolvedCommand(w, w, [])] == st3.batch;
    assert st2.(batch := st2.batch + [ResolvedCommand(w, w, [])], scope := Scope([], [], [])) == st3;
  }

  /** `build --verbose=yes`: an inline value is kept whatever the option's type. */
  lemma LongInlineValueExample(schema: Schema)
    requires schema == AppSchema
    ensures Parse(["build", "--verbose=yes"], schema)
            == Ok([AppEntry, ResolvedCommand("build", "build", [ResolvedOption("verbose", "verbose", Some("yes"))])])
  {
    var toks := [Token(Value, "build", "build"), Token(LongOption, "verbose=yes", "--verbose=yes")];
    LongInlineTokens();
    ParseFromRoot(["build", "--verbose=yes"], schema, RootState());
    LongInlineRun(schema, toks, RootState());
  }

  lemma LongInlineTokens()
    ensures Tokenize(["build", "--verbose=yes"])
            == [Token(Value, "build", "build"), Token(LongOption, "verbose=yes", "--verbose=yes")]
  {
    TokenizeTwo("build", "--verbose=yes");
    assert "--verbose=yes"[2..] == "verbose=yes";
  }

  lemma LongInlineRun(schema: Schema, toks: seq<Token>, root: ParseState)
    requires schema == AppSchema && root == RootState()
    requires toks == [Token(Value, "build", "build"), Token(LongOption, "verbose=yes", "--verbose=yes")]
    ensures Run(schema, toks, 0, root)
            == Ok(BuildState().(batch := [AppEntry, ResolvedCommand("build", "build", [ResolvedOption("verbose", "verbose", Some("yes"))])]))
  {
    DescendIntoBuild(schema, toks, root);
    LongValueStep(schema, toks, BuildState());
  }

  lemma LongValueStep(schema: Schema, toks: seq<Token>, st1: ParseState)
    requires toks == [Token(Value, "build", "build"), Token(LongOption, "verbose=yes", "--verbose=yes")]
    requires st1 == BuildState()
    ensures Run(schema, toks, 1, st1)
            == Ok(st1.(batch := [AppEntry, ResolvedCommand("build", "build", [ResolvedOption("verbose", "verbose", Some("yes"))])]))
  {
    assert "verbose=yes" == "verbose" + "=" + "yes";
    LongOptionTakesInlineValue(schema, toks, 1, st1, "verbose", "yes");
    var o := ResolvedOption("verbose", "verbose", Some("yes"));
    AddToPair(AppEntry, BuildEntry, o);
    assert [] + [o] == [o];
    assert st1.(batch := AddToLast(st1.batch, o)) == st1.(batch := [AppEntry, ResolvedCommand("build", "build", [o])]);
  }

  /** `-- -x`: after the marker the stripped body `x` is a bare word and fills `file`. */
  lemma EndOfOptionsExample(schema: Schema)
    requires schema == AppSchema
    ensures Parse(["--", "-x"], schema) == Ok([ResolvedCommand("app", "app", [ResolvedOption("file", "file", Some("x"))])])
  {
    var toks := [Token(EndOfOptions, "--", "--"), Token(ShortOption, "x", "-x")];
    TokenizeTwo("--", "-x");
    assert TokenizeArg("-x") == [Token(ShortOption, "x", "-x")];
    assert Tokenize(["--", "-x"]) == toks;
    ParseFromRoot(["--", "-x"], schema, RootState());
    MarkerStep(schema, toks, RootState());
  }

  lemma MarkerStep(schema: Schema, toks: seq<Token>, root: ParseState)
    requires toks == [Token(EndOfOptions, "--", "--"), Token(ShortOption, "x", "-x")] && root == RootState()
    ensures Run(schema, toks, 0, root)
            == Ok(ParseState([ResolvedCommand("app", "app", [ResolvedOption("file", "file", Some("x"))])],
                             Scope([Build], [FileOption], []), true))
  {
    var st := root.(noOptionsMode := true);
    RunUnfold(schema, toks, 0, root);
    assert Run(schema, toks, 0, root) == Run(schema, toks, 1, st);
    assert FindOneByNames([Build], CommandNames, "x") == None;
    RunUnfold(schema, toks, 1, st);
    var o := ResolvedOption("file", "file", Some("x"));
    AddToSingleton(AppEntry, o);
    assert [] + [o] == [o];
    assert [FileOption][1..] == [];
    var st2 := ParseState([ResolvedCommand("app", "app", [o])], Scope([Build], [FileOption], []), true);
    assert Step(schema, toks, 1, st) == Ok((st2, 2));
  }

  /** `-?`: a short option outside `[a-zA-Z0-9]` is an input error on the root entry. */
  lemma BadShortExample(schema: Schema)
    requires schema == AppSchema
    ensures Parse(["-?"], schema) == Err(InputError(ShortOptionMessage("?", "-?"), AppEntry))
  {
    var toks := [Token(ShortOption, "?", "-?")];
    TokenizeOne("-?");
    assert Tokenize(["-?"]) == toks;
    ParseFromRoot(["-?"], schema, RootState());
    BadShortStep(schema, toks, RootState());
  }

  lemma BadShortStep(schema: Schema, toks: seq<Token>, root: ParseState)
    requires toks == [Token(ShortOption, "?", "-?")] && root == RootState()
    ensures Run(schema, toks, 0, root) == Err(InputError(ShortOptionMessage("?", "-?"), AppEntry))
  {
    assert !IsShortName("?");
    BadShortOptionFails(schema, toks, 0, root);
  }

  /** A bare `-` produces no token, so the root entry is all there is. */
  lemma BareDashExample(schema: Schema)
    requires schema == AppSchema
    ensures Parse(["-"], schema) == Ok([AppEntry])
  {
    TokenizeOne("-");
    ParseFromRoot(["-"], schema, RootState());
  }

  /** Without a default command the parser fails before looking at the arguments. */
  lemma NoDefaultExample(args: seq<string>)
    ensures Parse(args, Schema([Build], [VerboseOption])) == Err(DefaultCommandMissing(DefaultCommandMessage))
  {
  }
}
