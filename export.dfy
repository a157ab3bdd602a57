/** Resolution: turning a validated command into the generic, name-plus-
    parameters definition the execution engine consumes, and the export step
    that builds the parameters by marshalling the command's fields. */
module Export {
  import opened Wrappers
  import opened Commands
  import opened Registry

  /** A marshalled field value. The JSON spelling of each value is not modelled. */
  datatype Field = Text(text: string) | Format(format: ArchiveFormat)

  /** The parameter map of a definition, keyed by field name. */
  type Params = map<string, Field>

  /** The generic, serialisable form of a command. */
  datatype CommandDefinition = CommandDefinition(commandName: string, params: Params)

  /** Why a command yields no definition; each stands for a Go panic. */
  datatype Fault =
    | Invalid(err: ValidationError)   // Resolve on a command that fails Validate
    | Marshaling(cause: string)       // exportCmd when marshalling the command fails
    | Unresolvable(message: string)   // a Resolve that always panics

  /** A value satisfying the command interface: one of the registry's own
      commands, or a foreign implementation whose marshalling always errors
      (the test suite's unmarshableCmd). */
  datatype AnyCommand = Builtin(cmd: Command) | Unmarshalable(name: string)

  /** The field map a registry command marshals to. */
  function Fields(c: Command): Params {
    match c
    case S3Put(key, secret, file) =>
      map["AWSKey" := Text(key), "AWSSecret" := Text(secret), "LocalFile" := Text(file)]
    case ArchiveCreate(f) => map["Format" := Format(f)]
    case ArchiveExtract(f) => map["Format" := Format(f)]
    case _ => map[]
  }

  /** Marshalling a command to its field map: the registry's commands always
      marshal, the foreign one never does. */
  function Marshal(c: AnyCommand): (r: Result<Params, string>)
    ensures r.Failure? <==> c.Unmarshalable?
    ensures c.Builtin? ==> r.value == Fields(c.cmd)
  {
    match c
    case Builtin(cmd) => Success(Fields(cmd))
    case Unmarshalable(_) => Failure("always")
  }

  /** exportCmd: the command's fields as a parameter map, or a marshalling
      fault; never a partial map. */
  function ExportCmd(c: AnyCommand): (r: Result<Params, Fault>)
    ensures r.Failure? <==> Marshal(c).Failure?
    ensures r.Failure? ==> r.error == Marshaling(Marshal(c).error)
    ensures r.Success? ==> r.value == Marshal(c).value
  {
    match Marshal(c)
    case Failure(e) => Failure(Marshaling(e))
    case Success(p) => Success(p)
  }

  /** Resolve on a registry command: re-validates, and on success names the
      definition with the canonical name and exports the fields. */
  function Resolve(c: Command): (r: Result<CommandDefinition, Fault>)
    ensures r.Success? <==> Validate(c).None?
    ensures r.Failure? ==> r.error == Invalid(Validate(c).value)
    ensures r.Success? ==> Some(r.value.commandName) == CanonicalName(c)
    ensures r.Success? ==> r.value.params == Fields(c)
  {
    match Validate(c)
    case Some(err) => Failure(Invalid(err))
    case None =>
      match ExportCmd(Builtin(c))
      case Failure(fault) => Failure(fault)
      case Success(params) => Success(CommandDefinition(CanonicalName(c).value, params))
  }

  /** Validate through the command interface. */
  function ValidateAny(c: AnyCommand): (err: Option<ValidationError>)
    ensures c.Builtin? ==> err == Validate(c.cmd)
    ensures c.Unmarshalable? ==> err.None?
  {
    match c
    case Builtin(cmd) => Validate(cmd)
    case Unmarshalable(_) => None
  }

  /** Resolve through the command interface: no definition comes out of a
      command that fails validation, nor out of the foreign command. */
  function ResolveAny(c: AnyCommand): (r: Result<CommandDefinition, Fault>)
    ensures ValidateAny(c).Some? ==> r.Failure?
    ensures r.Success? <==> c.Builtin? && ValidateAny(c).None?
    ensures c.Builtin? ==> r == Resolve(c.cmd)
  {
    match c
    case Builtin(cmd) => Resolve(cmd)
    case Unmarshalable(_) => Failure(Unresolvable("always"))
  }

  /** The text of a string field, empty when absent. */
  function TextField(p: Params, key: string): string {
    if key in p && p[key].Text? then p[key].text else ""
  }

  /** A command of the given kind with its fields read back from the parameters. */
  function FromParams(kind: Command, p: Params): Command {
    if kind.S3Put? then
      S3Put(TextField(p, "AWSKey"), TextField(p, "AWSSecret"), TextField(p, "LocalFile"))
    else kind
  }

  /** Reading a command's fields back from its own field map restores it. */
  lemma FromFields(c: Command)
    ensures FromParams(Shape(c), Fields(c)) == c
  {
  }

  /** The consumer's side: dispatch on the definition's name through the
      registry and read the fields back from the parameters. */
  function Decode(d: CommandDefinition): Option<Command> {
    match Lookup(Entries, d.commandName)
    case None => None
    case Some(kind) => Some(FromParams(kind, d.params))
  }

  /** A definition named by a command's canonical name and holding its
      fields decodes back to that command. */
  lemma DecodeFields(c: Command)
    requires CanonicalName(c).Some?
    ensures Decode(CommandDefinition(CanonicalName(c).value, Fields(c))) == Some(c)
  {
    LookupCanonical(c);
    FromFields(c);
  }

  /** A resolved definition carries the whole command: its name selects the
      kind and its parameters give back the fields. */
  lemma DecodeResolve(c: Command)
    requires Validate(c).None?
    ensures Resolve(c).Success? && Decode(Resolve(c).value) == Some(c)
  {
    assert Resolve(c).value == CommandDefinition(CanonicalName(c).value, Fields(c));
    DecodeFields(c);
  }

  /** Distinct well-formed commands resolve to distinct definitions. */
  lemma ResolveIsInjective(c: Command, d: Command)
    requires Validate(c).None? && Validate(d).None?
    requires Resolve(c) == Resolve(d)
    ensures c == d
  {
    DecodeResolve(c);
    DecodeResolve(d);
  }

  /** Two well-formed commands resolving to the same name are the same kind
      of command (and, for archives, use the same format). */
  lemma ResolvedNameIdentifiesKind(c: Command, d: Command)
    requires Resolve(c).Success? && Resolve(d).Success?
    requires Resolve(c).value.commandName == Resolve(d).value.commandName
    ensures Shape(c) == Shape(d)
  {
    CanonicalNameIdentifiesShape(c, d);
  }
}
