# appache-cli command-line layer, modelled in Dafny

appache-cli is the command-line plugin of the appache framework. This project models
its three core pieces:

- **The argument parser** (`src/parseArgs.js`). `tokenizeArgs` classifies each raw
  argument as a long option, a bundle of short options, a `--` marker or a value.
  `parseArgs` walks the tokens with the current command's scope and builds the batch:
  one entry per command typed, each entry carrying its resolved options.
- **The help composer** (`src/help.js`). It builds the usage line, the Commands section
  and the Options section, and memoises each composed text by command id in a
  module-level table.
- **The handlers** (`src/handling.js`). `handleError` chooses which command's help goes
  with an `InputError`. `handleResult` prints composed help, an "unavailable" notice or
  a result's value. `print` normalises its arguments.

How the files map to the source:

- `parse_args.dfy`
  - One method per loop of the source: `TokenizeArgs`, `ParseToken` with
    `ResolveOption`, and `ParseArgs`.
  - Each method is proved equal to a reference function (`Tokenize`, `Step`,
    `ApplyOption`, `Parse`).
  - `Parse` is `Run`, which applies one `Step` per loop iteration. A short option
    that consumes the next token moves the cursor on by two.
- `parse_args_lemmas.dfy` proves what the parser does:
  - the tokenizer round trip;
  - each branch of the option resolver;
  - the positional queue;
  - end-of-options mode;
  - the exact condition under which parsing fails;
  - the batch only ever growing at its end.
- `parse_args_examples.dfy` works concrete command lines through a two-command schema.
- `help.dfy`
  - The text functions (`UsageText`, `HelpText`, the row functions).
  - The methods that build the text with `+=`, as the source does (`MakeUsageText`,
    `BuildHelpText`).
  - The memo table as a class, `HelpComposer`, with a `texts` map. Its method
    `ComposeHelp` is proved equal to the pure semantics `Compose`.
- `help_lemmas.dfy` proves the layout and cache properties.
- `handling.dfy` and `handling_lemmas.dfy`
  - The handlers are functions, as the source's branch-on-locals code suggests.
  - A handler returns the `console[level](...)` calls it would make, together with the
    help table as it is afterwards.
- `schema.dfy` holds the schema datatypes and the host lookups the parser relies on.
- `common.dfy` holds `Option`, `Result` and the sequence helpers (`Map`, `Filter`,
  `FlatMap`, `Join`).

Collaborators outside this repository become uninterpreted function values, and nothing
is assumed about them:

- `wrap` and `formatColumns` from `./utils`;
- `chalk.red`;
- `findRootCommands`, `findCommandByFullName` and `populateCommand`.

The three lookups the parser's results depend on are given concrete definitions. Each
definition states its assumed behaviour:

- `findOneByNames`: the first node with a matching name or alias;
- `findByIds`: the entries in the order of the ids;
- `findDefaultCommand`: the first command flagged default.

Some of what the code does may be surprising to a reader. The model follows the code in
each case:

- A bare `-` yields no token at all: the argument is dropped. The usual command-line
  convention (POSIX.1-2017, volume Base Definitions, section 12.2, Utility Syntax
  Guidelines, Guideline 13) treats a lone `-` as an operand, usually meaning standard
  input. (`TokenizeArgRoundTrip`, `BareDashExample`.)
- After `--`, option-shaped arguments reach the bare-word branch with their dashes
  stripped, one word per character of a bundle. So `-x` after `--` binds `x`, not `-x`,
  and it can still match a sub-command. (`AfterEndOfOptions`, `EndOfOptionsExample`.)
- A batch entry is named by the word as typed, alias included, not by the command's
  declared name. (`BareWordDescends`.)
- An `InputError` without a command context is printed as the coloured message alone,
  with no wrapping. (`BareMessageWithoutContext`.)
- When an event is present but yields no command, `handleError` does not fall back to
  the first root command. (`NoRootFallbackWithEvent`.)
- `composeHelp` memoises by command id alone. A later call with another display name
  returns the text composed for the first name. (`CacheHitIgnoresName`.)
- The parser attaches its current entry to an `InputError`. That entry has no `config`,
  so a parse error is never shown with help. (`ParseErrorsShowNoHelp`.)

## Model

| member | source | states |
|---|---|---|
| ParseArgs.TokenizeArg | src/parseArgs.js:15-39 | every token of an argument carries that argument as its raw text, and an argument yields no token iff it is `-` |
| ParseArgs.ShortTokens | src/parseArgs.js:25-36 | a bundle yields one short-option token per character, in order, each with the raw argument |
| ParseArgs.TokenizeArgs | src/parseArgs.js:13-43 | the accumulating loop computes exactly the left fold `Tokenize` of the per-argument classification |
| ParseArgsLemmas.TokenizeArgRoundTrip | src/parseArgs.js:15-39 | an argument yields no token iff it is `-`; otherwise its tokens reassemble to the argument (`--` + body, `-` + the short bodies, or the value) |
| ParseArgsLemmas.TokenizeArgShape | src/parseArgs.js:15-39 | case by case: `--body` gives one long token, `--` one marker, `-abc` one short token per character, anything else one value token; every token keeps its raw argument |
| ParseArgsLemmas.TokenizeAppend | src/parseArgs.js:13-43 | tokenizing is local to each argument: the tokens of `a + b` are the tokens of `a` followed by those of `b` |
| ParseArgsLemmas.TokenizeSnoc | src/parseArgs.js:14-42 | one step of the `reduce`: appending an argument appends exactly its tokens |
| ParseArgs.Extract | src/parseArgs.js:45-50 | the scope's commands and options are exactly what the schema holds for the command's id lists: everything in them is declared on the command, in the order of its id lists, and every declared id that has a schema entry brings that entry; the positional queue is the scope's options filtered to the positional ones, in that same order |
| Common.Filter | src/parseArgs.js:48 | JavaScript's `filter`: the result is a subsequence of the input, in its order, that keeps every occurrence of an element satisfying the predicate and no occurrence of any other element |
| Common.FilterIdempotent | src/help.js:92-93 | filtering an already filtered list by the same predicate returns it unchanged |
| ParseArgs.IndexOf | src/parseArgs.js:78-79 | the index found is the first occurrence of the character; none iff the character is absent |
| ParseArgsLemmas.IndexOfSplit | src/parseArgs.js:78-80 | for `n=v` with no `=` in `n`, the split point is right after `n` |
| ParseArgs.AddToLast | src/parseArgs.js:121 | appending to the current entry changes only the last entry, keeps its names and adds exactly the option at the end |
| ParseArgs.ClassifyBareWord | src/parseArgs.js:123-126 | a bare word descends iff some scope command has it as name or alias; otherwise it binds the head of a non-empty positional queue, or else opens an unknown command |
| ParseArgs.ApplyBareWord | src/parseArgs.js:122-153 | the bare-word branch grows the batch by one entry unless it binds a positional; earlier entries and the end-of-options flag are unchanged |
| ParseArgs.ApplyOption | src/parseArgs.js:77-121 | the option branch advances the cursor by one, or by two only over a following value token, and changes nothing but the batch, keeping its length |
| ParseArgs.Step | src/parseArgs.js:72-154 | one loop iteration moves the cursor forward within the tokens and keeps the batch non-empty |
| ParseArgs.ResolveOption | src/parseArgs.js:78-121 | the option branch as written computes `ApplyOption` |
| ParseArgs.Run | src/parseArgs.js:72-154 | the loop from a cursor to the end of the tokens, one `Step` per iteration, stopping at the first error; a successful run never shortens the batch |
| ParseArgs.Parse | src/parseArgs.js:52-157 | the whole of `parseArgs`: the missing-default error, else the run from the default command's entry and scope; its behaviour is stated by `ParseBatchShape`, `RunFailsIffMalformed` and `RunExtendsBatch` |
| ParseArgs.ParseToken | src/parseArgs.js:73-153 | the loop body as written computes `Step` |
| ParseArgs.ParseArgs | src/parseArgs.js:52-157 | the source's loop, with its locals and the extra `i++`, returns exactly `Parse`: the run of `Step` from the default command's state, or the missing-default error |
| ParseArgsLemmas.LongOptionTakesInlineValue | src/parseArgs.js:100-101 | `--n=v` with a non-empty name appends option `n` with value `v` and does not consume the next token |
| ParseArgsLemmas.LongOptionWithoutValue | src/parseArgs.js:78-121 | a long option without `=` appends its name with no value and never looks at the next token |
| ParseArgsLemmas.EmptyLongNameFails | src/parseArgs.js:92-96 | `--=…` stops the parse with the empty-name `InputError` carrying the current entry |
| ParseArgsLemmas.BadShortOptionFails | src/parseArgs.js:83-90 | a short option outside `[a-zA-Z0-9]` stops the parse with the short-option `InputError` naming the character and raw argument, carrying the current entry |
| ParseArgsLemmas.ConsumePolicy | src/parseArgs.js:103-112 | a known short option consumes per its explicit `consume`, else per its type: `boolean` does not, every other type does |
| ParseArgsLemmas.ShortOptionConsumesNextValue | src/parseArgs.js:102-117 | a known consuming short option followed by a value token takes that value and skips it |
| ParseArgsLemmas.ShortOptionWithoutValue | src/parseArgs.js:102-121 | an unknown short option, a non-consuming one, or one not followed by a value gets no value and the cursor moves by one |
| ParseArgsLemmas.BareWordDescends | src/parseArgs.js:126-143 | a word matching a scope command appends an entry named as typed and switches to that command's scope |
| ParseArgsLemmas.BareWordOpensUnknown | src/parseArgs.js:132-143 | an unmatched word with an empty positional queue appends an entry named as typed with an empty scope |
| ParseArgsLemmas.BindFirstPositional | src/parseArgs.js:144-152 | an unmatched bare word (a value, or after `--` any option-shaped token's stripped body) with a non-empty queue binds the front positional's name to the word and dequeues it |
| ParseArgsLemmas.UnmatchedWordsIff | src/parseArgs.js:75-77 | the run of tokens the positional lemma speaks of is exactly a run of bare words (value tokens, or after `--` any token but a marker) none of which names a sub-command of the scope |
| ParseArgsLemmas.PositionalsBindInOrder | src/parseArgs.js:144-152 | `n` consecutive unmatched bare words, in either mode, bind the first `n` queued positionals in declaration order and leave the rest of the queue |
| ParseArgsLemmas.AfterEndOfOptions | src/parseArgs.js:75-77 | once end-of-options mode is set, the rest of the run always succeeds and treats every non-marker body as a bare word, in order |
| ParseArgsLemmas.MarkerSwitchesToWords | src/parseArgs.js:75-76 | a `--` marker emits nothing and switches the rest of the run to bare words for good |
| ParseArgsLemmas.NoOptionsNeverFails | src/parseArgs.js:77 | in end-of-options mode no token can make the parse fail |
| ParseArgsLemmas.RunFailsIffMalformed | src/parseArgs.js:72-96 | the run fails iff some option token before the first `--` is a bad short option or has an empty name; unknown names never fail it |
| ParseArgsLemmas.StepExtendsBatch | src/parseArgs.js:121-143 | a step only appends: earlier entries untouched, the last entry only gains options, at most one new entry, and names stay as typed |
| ParseArgsLemmas.RunExtendsBatch | src/parseArgs.js:72-154 | a successful run extends the starting batch by appending only and keeps every name equal to its typed name |
| ParseArgsLemmas.RunErrorsAreInputErrors | src/parseArgs.js:83-95 | every failure inside the loop is an `InputError` |
| ParseArgsLemmas.ParseBatchShape | src/parseArgs.js:52-67 | the missing-default `Error` happens iff no command is flagged default; a successful batch starts with the default command's entry |
| ParseArgsExamples.PositionalExample | src/parseArgs.js:144-152 | `app <w>` binds the root's positional `file` to `w` |
| ParseArgsExamples.ShortBooleanExample | src/parseArgs.js:102-117 | in `build -v w`, the boolean short option takes no value and `w` opens an unknown command |
| ParseArgsExamples.LongInlineValueExample | src/parseArgs.js:100-101 | `build --verbose=yes` records value `yes` on the `build` entry |
| ParseArgsExamples.EndOfOptionsExample | src/parseArgs.js:75-77 | `-- -x` binds the stripped body `x` to the positional |
| ParseArgsExamples.BadShortExample | src/parseArgs.js:83-90 | `-?` fails with the short-option message on the root entry |
| ParseArgsExamples.BareDashExample | src/parseArgs.js:25-36 | a lone `-` leaves the batch as just the root entry |
| ParseArgsExamples.NoDefaultExample | src/parseArgs.js:53-57 | a schema without a default command fails before reading any argument |
| Schema.FindOneByNames | src/parseArgs.js:98 | the lookup the parser relies on: a node with the typed name or alias, none iff no node has it |
| Schema.FindOneByNamesFirst | src/parseArgs.js:98 | when several nodes match, the lookup returns the first of them: the node at `k` when it matches and none before it does |
| Schema.FindByIds | src/parseArgs.js:46-47 | the entries come from the table, their ids, in order, are a subsequence of the id list, and every id in the list that has a table entry brings that entry |
| Schema.FindDefaultCommand | src/parseArgs.js:53 | a command flagged default, none iff no command is flagged |
| Help.UsageLine | src/help.js:15-29 | the line before wrapping: the display name, ` [options]` and the positional markers when there are options, ` [command]` when there are commands; its properties are the three marker lemmas below |
| Help.UsageText | src/help.js:13-38 | `makeUsageText`: `Usage:` and the wrapped line, after the wrapped description and a blank line when the description is truthy; `MakeUsageText` is proved equal to it |
| Help.MakeUsageText | src/help.js:13-38 | the `+=` loop over the options computes `UsageText`: the wrapped description and blank line when truthy, then `Usage:` and the wrapped line |
| Help.AppendPositionalMarkers | src/help.js:20-24 | the `forEach` loop appends exactly the markers of the positional options, in order |
| HelpLemmas.UsageLineStartsWithName | src/help.js:15 | the usage line begins with the display name |
| HelpLemmas.OptionsMarkerIff | src/help.js:17-25 | ` [options]` follows the name iff the unfiltered option list is non-empty, hidden options included |
| HelpLemmas.CommandMarkerIff | src/help.js:27-29 | the line is the line built without commands followed by ` [command]` iff the unfiltered command list is non-empty, and is exactly that line otherwise |
| HelpLemmas.PositionalMarkersInOrder | src/help.js:20-24 | the markers are those of the positional options in declaration order, `<name>` when required and `[name]` otherwise |
| Help.VisibleNames | src/help.js:47 | a name is shown iff it is among the names and not in `hiddenNames`; the shown names keep their order, and a repeated visible name is shown as many times as it is listed |
| Help.CommandRow | src/help.js:43-50 | one row of `makeCommandsText`: the visible names joined with `, `, and the description or `''`; `CommandRowNames` states it |
| HelpLemmas.CommandRowNames | src/help.js:43-50 | a command row lists the visible names of `[name] + aliases` in their declared order, joined with `, `, and its description cell is the description or `''` |
| Help.CommandsText | src/help.js:40-56 | `makeCommandsText`: `Commands:` and the formatted rows of the commands that are not hidden; `CommandsTextRows` states it |
| HelpLemmas.CommandsTextRows | src/help.js:40-56 | for any list it is given, the Commands section formats exactly one `CommandRow` per visible command of that list, in its order, with the command's `wrap` as line width |
| Help.InsertByLength | src/help.js:66 | inserting into a length-sorted list keeps it sorted and adds exactly the element |
| Help.SortByLength | src/help.js:66 | the sort by `a.length - b.length` yields a length-sorted permutation of its input |
| HelpLemmas.SortByLengthStable | src/help.js:66 | the sort is stable: names of the same length keep their relative order |
| Help.OptionRow | src/help.js:61-73 | one row of `makeOptionsText`: the visible names sorted by length and rendered, joined with `, `, and the description as given; `OptionRowNames` states it |
| Help.OptionsText | src/help.js:58-79 | `makeOptionsText`: `Options:` and the formatted rows of the options that are not hidden; `OptionsTextRows` states it |
| HelpLemmas.OptionsTextRows | src/help.js:58-79 | for any list it is given, the Options section formats exactly one `OptionRow` per visible option of that list, in its order, with the command's `wrap` as line width |
| HelpLemmas.OptionRowNames | src/help.js:62-72 | an option row lists the visible names shortest first, one-character names as `-x` and others as `--name` |
| Help.SectionsText | src/help.js:92-101 | what follows the usage text: a blank line and the Commands section when a command is visible, then a blank line and the Options section when an option is visible |
| HelpLemmas.SectionsGetVisibleEntries | src/help.js:92-100 | the already filtered lists the help text passes give the same sections as the command's own lists, since the section builders filter again and a second filter changes nothing |
| Help.HelpText | src/help.js:89-101 | the text composed on a miss: the usage text followed by the sections; its layout is stated by the section lemmas below |
| Help.DisplayName | src/help.js:83 | `commandName || commandConfig.name`; `MissComposesForDisplayName` states its use |
| Help.BuildHelpText | src/help.js:89-101 | the appending code on a cache miss computes `HelpText` |
| Help.HelpTextNonEmpty | src/help.js:90-101 | the composed text starts with the usage text and is never empty |
| Help.Compose | src/help.js:82-105 | the memo semantics: a truthy stored entry is returned with the table unchanged; otherwise the text is stored under the id alone, other entries kept; the result is never empty |
| Help.HelpComposer.ComposeHelp | src/help.js:82-105 | the method on the `texts` field returns the stored text on a hit; on a miss it composes for the truthy `commandName` or else the command's name, stores the text under the id alone and keeps the table's invariant |
| Help.HelpComposer.constructor | src/help.js:11 | the table starts empty |
| HelpLemmas.CacheHitIgnoresName | src/help.js:83-87 | once an id is stored, any display name gets the stored text and the table is unchanged |
| HelpLemmas.ComposeIdempotent | src/help.js:85-87 | a second call for the same command returns the same text and table as the first, whatever the name |
| HelpLemmas.ComposeKeepsStoredNonEmpty | src/help.js:103 | the table only ever holds non-empty texts, so a stored id always hits |
| HelpLemmas.MissComposesForDisplayName | src/help.js:83 | on a miss the text is composed for `commandName` when it is truthy, else for the command's own name |
| HelpLemmas.CommandsSectionIff | src/help.js:92-97 | `Commands:` directly follows the usage text iff some command is not hidden |
| HelpLemmas.OptionsSectionLast | src/help.js:99-101 | with a visible option, `Options:` and its rows end the text, after any Commands section |
| HelpLemmas.NoOptionsSectionWhenHidden | src/help.js:93-101 | when every option is hidden there is no Options section: the help is the usage text, then the Commands section only if some command is visible |
| HelpLemmas.NoSectionsWhenAllHidden | src/help.js:92-101 | when every command and option is hidden the help is the usage text alone |
| HelpLemmas.HiddenCommandAddsNothing | src/help.js:92-96 | adding a hidden command to a non-empty list leaves the whole help text unchanged |
| HelpLemmas.HiddenOptionAddsNothing | src/help.js:93-100 | adding a hidden non-positional option to a non-empty list leaves the whole help text unchanged |
| Handling.Print | src/handling.js:10-24 | three calls at one level, the value in the middle; a string `maxWidth` is the level; the value is wrapped only when it is a string and the width is truthy |
| Handling.ParentPath | src/handling.js:69 | `slice(0, -1)`: the path without its last segment, the empty path for an empty one |
| Handling.FindErrorContext | src/handling.js:57-75 | the command whose help goes with an `InputError` and its display name; its branches are stated by the five context lemmas below |
| Handling.InputErrorText | src/handling.js:56-81 | the help table gains at most one id and loses none; the text is non-empty whenever the coloured message is |
| Handling.HandleError | src/handling.js:51-84 | everything `handleError` prints is three calls at level `error` |
| Handling.FromParseError | src/parseArgs.js:84-95 | the parser's `InputError`s carry the message and an entry without config; the missing default is a plain error |
| Handling.ResultOutput | src/handling.js:26-44 | a `Help` result always prints a string, and only a `Help` result can touch the help table |
| Handling.HandleResult | src/handling.js:46-48 | nothing is printed iff the value is `undefined`; otherwise three calls at level `log` |
| HandlingLemmas.ErrorCommandTakesPriority | src/handling.js:59-61 | the error's own command decides alone, whatever the event and root commands; it gives help iff it has a config, under its typed name |
| HandlingLemmas.EventCommandUsedDirectly | src/handling.js:62-67 | without an error command, an event command with a config is used with its typed name |
| HandlingLemmas.EventParentFallback | src/handling.js:68-72 | an event command without config falls back to its parent path (the empty path when its own path is empty, as `slice(0, -1)` gives), looked up by full name and shown as the segments joined by spaces |
| HandlingLemmas.NoRootFallbackWithEvent | src/handling.js:62-75 | with an event present the root commands are never consulted; an event with no command gives no help |
| HandlingLemmas.RootCommandFallback | src/handling.js:73-75 | with no error command and no event, the first root command is used, under its own name, iff the schema is present and has a root |
| HandlingLemmas.NonInputErrorPrintedAsIs | src/handling.js:52-54 | a thrown value that is not an `InputError` is printed as it is at `error`, with no help and no change to the table |
| HandlingLemmas.BareMessageWithoutContext | src/handling.js:56-83 | without a context exactly the coloured message is printed, unwrapped, and the table is unchanged |
| HandlingLemmas.HelpFollowsMessage | src/handling.js:77-81 | with a context: the wrapped coloured message, a blank line, then the command's help, which is stored under the populated command's id; on a miss it is the text for the display name |
| HandlingLemmas.RepeatedErrorReusesHelp | src/handling.js:77-81 | a second error for the same command reuses the stored help and leaves the table as it was |
| HandlingLemmas.ParseErrorsShowNoHelp | src/handling.js:59-61 | any error `parseArgs` throws is printed without help: the coloured message, or the plain error as it is |
| HandlingLemmas.HelpResultPrintsHelp | src/handling.js:33-36 | a `Help` result with a schema and a command config prints the composed or cached help, unwrapped, at `log` |
| HandlingLemmas.HelpUnavailable | src/handling.js:37-39 | without a schema or a command config it prints `Help is unavailable for` and the typed name, `undefined` when absent |
| HandlingLemmas.ValueResultUsesCommandWidth | src/handling.js:40-43 | another `Result` prints its value wrapped to the width of the command config as given, not the populated one |
| HandlingLemmas.UnwrappedWithoutWidth | src/handling.js:46-48 | a non-result value, or a result without a width, is printed as it is |
| HandlingLemmas.UndefinedPrintsNothing | src/handling.js:46-48 | an `undefined` value, bare or as a result's value, prints nothing |
| HandlingLemmas.HelpAlwaysPrints | src/handling.js:33-39 | a `Help` result always prints something |

## Left out

- `src/index.js` is not part of this model. It wires the plugin through generator effects and reads `process.argv`. It also holds older copies of the handlers, which the model does not follow.
- `wrap` and `formatColumns` from `./utils` are not part of this model. Both are uninterpreted function values, so nothing about line layout is claimed.
- `chalk.red` is an uninterpreted string function, and `console[level]` is not called. The handlers return the calls they would make.
- `findRootCommands`, `findCommandByFullName` and `populateCommand` are uninterpreted. The hidden-inclusion flag is fixed at `true`, as every call site passes it.
- `getCommandFromEvent` is applied by the caller. Its three outcomes are the `Event` variants: no event, an event with no command, or an event with a command.
- `findOneByNames`, `findByIds` and `findDefaultCommand` are given definitions rather than their host implementations. The behaviour those definitions state is an assumption about the host.
- Properties that JavaScript objects inherit are not modelled. A lookup of `constructor` in `CONSUME_BY_TYPE` or in the `texts` table would find an inherited value. Here both are maps with only their own keys.
- Characters are Dafny `char`s. JavaScript's UTF-16 code units (`charAt`, `split('')`) are not modelled, so a bundle with an astral character is split differently.
- The shared `currentCommand` object is not modelled as an aliased reference. It is always the batch's last entry, and the model rewrites that entry in place of `currentCommand.options.push`. The entry attached to an `InputError` is its value at the throw.
- Absent `aliases`, `hiddenNames`, `options` and `commands` are empty sequences. An absent `type` or `consume` is `None`. Values of other JavaScript types in those places are not modelled.
- Widths are natural numbers. A negative or non-numeric `wrap` and an unknown `console` level are not modelled.
- `instanceof Result` and `instanceof Help` become the variants of `ResultValue`. `instanceof InputError` becomes a variant of `ErrorValue`. Any other thrown or returned value is an opaque `Other` printed as it is.
- `modifySchema` and the asynchronous control flow around the handlers are not part of this model.
