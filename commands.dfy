/** The typed pipeline steps of the command registry, how each one validates
    its own fields, and the canonical name each well-formed step resolves to. */
module Commands {
  import opened Wrappers

  /** A format string that is not the "auto" sentinel. */
  type UnknownFormat = s: string | s != "auto" witness ""

  /** The archive format field. `Auto` is the "auto" sentinel (infer the format
      on extraction) and its only representation; `Other` stands for any other
      string outside the closed set. */
  datatype ArchiveFormat = Zip | Tarball | Auto | Other(text: UnknownFormat)

  /** One constructor per command type of the registry. Only the fields that
      take part in validation are carried; the others are not modelled. */
  datatype Command =
    | Exec
    | ExecShell
    | SetExpansions
    | S3Copy
    | S3Get
    | S3Put(awsKey: string, awsSecret: string, localFile: string)
    | S3Push
    | S3Pull
    | GetProject
    | AttachArtifacts
    | ResultsJson
    | ResultsXunit
    | ResultsGoTest
    | ArchiveCreate(format: ArchiveFormat)
    | ArchiveExtract(format: ArchiveFormat)
    | HostCreate
    | HostList
    | ExpansionsUpdate
    | ExpansionsWrite
    | JsonSend
    | PapertrailTrace
    | PerfSend
    | TimeoutUpdate

  /** What `Validate` reports: the required fields left empty, or a format
      that the command does not accept. */
  datatype ValidationError =
    | MissingFields(names: seq<string>)
    | UnsupportedFormat(format: ArchiveFormat)

  /** Formats an archive can be created in: creation must know its target. */
  predicate CreatableFormat(f: ArchiveFormat) {
    f == Zip || f == Tarball
  }

  /** Formats an archive can be extracted from: the closed set, "auto" included. */
  predicate ExtractableFormat(f: ArchiveFormat) {
    !f.Other?
  }

  /** The namespacing a canonical name shows: it contains a dot, and neither
      starts nor ends with one. */
  predicate Namespaced(name: string) {
    2 < |name| && '.' in name && name[0] != '.' && name[|name| - 1] != '.'
  }

  /** The names of the S3 put credentials and file that are left empty, in field order. */
  function MissingS3PutFields(key: string, secret: string, file: string): (names: seq<string>)
    ensures "AWSKey" in names <==> key == ""
    ensures "AWSSecret" in names <==> secret == ""
    ensures "LocalFile" in names <==> file == ""
    ensures names == [] <==> key != "" && secret != "" && file != ""
  {
    (if key == "" then ["AWSKey"] else [])
    + (if secret == "" then ["AWSSecret"] else [])
    + (if file == "" then ["LocalFile"] else [])
  }

  /** The canonical registry name of a command, the authoritative string the
      execution engine dispatches on. An archive command whose format has no
      action of its kind has none. */
  function CanonicalName(c: Command): (name: Option<string>)
    ensures name.None? <==>
              (c.ArchiveCreate? && !CreatableFormat(c.format))
              || (c.ArchiveExtract? && !ExtractableFormat(c.format))
    ensures name.Some? ==> Namespaced(name.value)
  {
    match c
    case Exec => Some("subprocess.exec")
    case ExecShell => Some("shell.exec")
    case SetExpansions => Some("downstream_expansions.set")
    case S3Copy => Some("s3Copy.copy")
    case S3Get => Some("s3.get")
    case S3Put(_, _, _) => Some("s3.put")
    case S3Push => Some("s3.push")
    case S3Pull => Some("s3.pull")
    case GetProject => Some("git.get_project")
    case AttachArtifacts => Some("attach.artifacts")
    case ResultsJson => Some("attach.results")
    case ResultsXunit => Some("attach.xunit_results")
    case ResultsGoTest => Some("gotest.parse_files")
    case ArchiveCreate(f) =>
      (match f
       case Zip => Some("archive.zip_pack")
       case Tarball => Some("archive.targz_pack")
       case _ => None)
    case ArchiveExtract(f) =>
      (match f
       case Zip => Some("archive.zip_extract")
       case Tarball => Some("archive.targz_extract")
       case Auto => Some("archive.auto_extract")
       case Other(_) => None)
    case HostCreate => Some("host.create")
    case HostList => Some("host.list")
    case ExpansionsUpdate => Some("expansions.update")
    case ExpansionsWrite => Some("expansions.write")
    case JsonSend => Some("json.send")
    case PapertrailTrace => Some("papertrail.trace")
    case PerfSend => Some("perf.send")
    case TimeoutUpdate => Some("timeout.update")
  }

  /** Checks a command's own fields; `None` is Go's nil error. */
  function Validate(c: Command): (err: Option<ValidationError>)
    // S3 put needs its key, its secret and its local file, all three.
    ensures c.S3Put? ==>
              (err.None? <==> c.awsKey != "" && c.awsSecret != "" && c.localFile != "")
    ensures c.S3Put? && err.Some? ==>
              && err.value.MissingFields?
              && ("AWSKey" in err.value.names <==> c.awsKey == "")
              && ("AWSSecret" in err.value.names <==> c.awsSecret == "")
              && ("LocalFile" in err.value.names <==> c.localFile == "")
    // The asymmetric "auto" rule and the closed format set.
    ensures c.ArchiveCreate? ==> (err.None? <==> CreatableFormat(c.format))
    ensures c.ArchiveExtract? ==> (err.None? <==> ExtractableFormat(c.format))
    ensures (c.ArchiveCreate? || c.ArchiveExtract?) && err.Some? ==>
              err.value == UnsupportedFormat(c.format)
    // Every other command has no required field.
    ensures !(c.S3Put? || c.ArchiveCreate? || c.ArchiveExtract?) ==> err.None?
    // A command that passes has a canonical name to resolve to.
    ensures err.None? ==> CanonicalName(c).Some?
  {
    match c
    case S3Put(key, secret, file) =>
      var missing := MissingS3PutFields(key, secret, file);
      if missing == [] then None else Some(MissingFields(missing))
    case ArchiveCreate(f) =>
      if CreatableFormat(f) then None else Some(UnsupportedFormat(f))
    case ArchiveExtract(f) =>
      if ExtractableFormat(f) then None else Some(UnsupportedFormat(f))
    case _ => None
  }
}
