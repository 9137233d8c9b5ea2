/** The command schema the parser and the help composer read, and the lookups into it.
    The lookups (`findByIds`, `findOneByNames`, `findDefaultCommand`) belong to the host
    framework whose code is not part of this model; they are given here as concrete
    functions whose behaviour is an assumption, stated on each. */
module Schema {
  import opened Common

  /** An option definition. Absent `aliases`/`hiddenNames` are the empty sequence; an
      absent `type` or `consume` is `None`. */
  datatype OptionDef = OptionDef(
    id: string,
    name: string,
    aliases: seq<string>,
    hiddenNames: seq<string>,
    description: Option<string>,
    positional: bool,
    required: bool,
    typ: Option<string>,
    consume: Option<bool>,
    hidden: bool)

  /** A command definition as stored in the schema: children and options by id. */
  datatype CommandDef = CommandDef(
    id: string,
    name: string,
    aliases: seq<string>,
    hiddenNames: seq<string>,
    description: Option<string>,
    commands: seq<string>,
    options: seq<string>,
    wrap: Option<nat>,
    isDefault: bool,
    hidden: bool)

  /** A command config after the host's `populateCommand`: children and options resolved
      to their definitions, which is the shape the help composer reads. */
  datatype PopulatedCommand = PopulatedCommand(
    id: string,
    name: string,
    description: Option<string>,
    wrap: Option<nat>,
    options: seq<OptionDef>,
    commands: seq<CommandDef>)

  /** The schema: tables of all command and option definitions. */
  datatype Schema = Schema(commands: seq<CommandDef>, options: seq<OptionDef>)

  function CommandNames(c: CommandDef): seq<string> { [c.name] + c.aliases }
  function OptionNames(o: OptionDef): seq<string> { [o.name] + o.aliases }
  function CommandId(c: CommandDef): string { c.id }
  function OptionId(o: OptionDef): string { o.id }
  predicate IsPositional(o: OptionDef) { o.positional }

  /** Assumed behaviour of `findOneByNames`: the first node one of whose names (the name
      or an alias) equals the typed string. */
  function FindOneByNames<T(!new)>(nodes: seq<T>, names: T -> seq<string>, typed: string): (r: Option<T>)
    ensures r.Some? ==> r.value in nodes && typed in names(r.value)
    ensures r.None? <==> forall n :: n in nodes ==> typed !in names(n)
    ensures r.Some? && |nodes| > 0 && typed in names(nodes[0]) ==> r.value == nodes[0]
  {
    if |nodes| == 0 then None
    else if typed in names(nodes[0]) then Some(nodes[0])
    else FindOneByNames(nodes[1..], names, typed)
  }

  /** The node found is the first node that has the typed name: when `nodes[k]` has it and
      no earlier node does, `nodes[k]` is the result. */
  lemma {:induction false} FindOneByNamesFirst<T(!new)>(nodes: seq<T>, names: T -> seq<string>, typed: string, k: nat)
    requires k < |nodes| && typed in names(nodes[k])
    requires forall j :: 0 <= j < k ==> typed !in names(nodes[j])
    ensures FindOneByNames(nodes, names, typed) == Some(nodes[k])
  {
    if k > 0 {
      assert typed !in names(nodes[0]);
      forall j | 0 <= j < k - 1 ensures typed !in names(nodes[1..][j]) {
        assert nodes[1..][j] == nodes[j + 1];
      }
      FindOneByNamesFirst(nodes[1..], names, typed, k - 1);
    }
  }

  /** The first entry of `table` whose id is `id`. */
  function FindById<T(!new)>(table: seq<T>, idOf: T -> string, id: string): (r: Option<T>)
    ensures r.Some? ==> r.value in table && idOf(r.value) == id
    ensures r.None? <==> forall x :: x in table ==> idOf(x) != id
  {
    if |table| == 0 then None
    else if idOf(table[0]) == id then Some(table[0])
    else FindById(table[1..], idOf, id)
  }

  /** Assumed behaviour of `findByIds`: the entries for the given ids, in the order of
      the ids; an id with no entry contributes nothing. */
  function FindByIds<T(!new)>(table: seq<T>, idOf: T -> string, ids: seq<string>): (r: seq<T>)
    ensures |r| <= |ids|
    ensures forall x :: x in r ==> x in table && idOf(x) in ids
    ensures SubsequenceOf(Map(r, idOf), ids)
    ensures forall id :: id in ids && FindById(table, idOf, id).Some? ==> FindById(table, idOf, id).value in r
  {
    if |ids| == 0 then []
    else
      var rest := FindByIds(table, idOf, ids[1..]);
      assert ids == [ids[0]] + ids[1..];
      match FindById(table, idOf, ids[0])
      case Some(x) =>
        assert Map([x] + rest, idOf) == [ids[0]] + Map(rest, idOf);
        assert ([ids[0]] + Map(rest, idOf))[1..] == Map(rest, idOf);
        [x] + rest
      case None => rest
  }

  /** Assumed behaviour of `findDefaultCommand`: the first command flagged as default. */
  function FindDefaultCommand(schema: Schema): (r: Option<CommandDef>)
    ensures r.Some? ==> r.value in schema.commands && r.value.isDefault
    ensures r.None? <==> forall c :: c in schema.commands ==> !c.isDefault
  {
    FindDefaultIn(schema.commands)
  }

  function FindDefaultIn(cs: seq<CommandDef>): (r: Option<CommandDef>)
    ensures r.Some? ==> r.value in cs && r.value.isDefault
    ensures r.None? <==> forall c :: c in cs ==> !c.isDefault
  {
    if |cs| == 0 then None
    else if cs[0].isDefault then Some(cs[0])
    else FindDefaultIn(cs[1..])
  }
}
