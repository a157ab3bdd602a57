/** The canonical name registry: the fixed table from canonical names to the
    command kinds (and archive actions) they stand for, and the lookup a
    consumer uses to dispatch on a name. */
module Registry {
  import opened Wrappers
  import opened Commands

  /** A command with every free-form field cleared: what remains (its kind and,
      for archives, its format) is exactly what its canonical name selects. */
  function Shape(c: Command): (s: Command)
    ensures CanonicalName(s) == CanonicalName(c)
    ensures s.S3Put? <==> c.S3Put?
    ensures s.S3Put? ==> s.awsKey == "" && s.awsSecret == "" && s.localFile == ""
  {
    match c
    case S3Put(_, _, _) => S3Put("", "", "")
    case _ => c
  }

  /** The registry: `CanonicalName` keyed by name, one entry per canonical
      name, kept so that a consumer can look a command kind up from its name.
      `Position` and `EntriesAreCanonical` keep it in step with `CanonicalName`. */
  const Entries: seq<(string, Command)> := [
    ("subprocess.exec", Exec),
    ("shell.exec", ExecShell),
    ("downstream_expansions.set", SetExpansions),
    ("s3Copy.copy", S3Copy),
    ("s3.get", S3Get),
    ("s3.put", S3Put("", "", "")),
    ("s3.push", S3Push),
    ("s3.pull", S3Pull),
    ("git.get_project", GetProject),
    ("attach.artifacts", AttachArtifacts),
    ("attach.results", ResultsJson),
    ("attach.xunit_results", ResultsXunit),
    ("gotest.parse_files", ResultsGoTest),
    ("archive.zip_pack", ArchiveCreate(Zip)),
    ("archive.targz_pack", ArchiveCreate(Tarball)),
    ("archive.zip_extract", ArchiveExtract(Zip)),
    ("archive.targz_extract", ArchiveExtract(Tarball)),
    ("archive.auto_extract", ArchiveExtract(Auto)),
    ("host.create", HostCreate),
    ("host.list", HostList),
    ("expansions.update", ExpansionsUpdate),
    ("expansions.write", ExpansionsWrite),
    ("json.send", JsonSend),
    ("papertrail.trace", PapertrailTrace),
    ("perf.send", PerfSend),
    ("timeout.update", TimeoutUpdate)
  ]

  /** Where a command's kind sits in the registry. */
  function Position(c: Command): (i: nat)
    requires CanonicalName(c).Some?
    ensures i < |Entries| && Entries[i] == (CanonicalName(c).value, Shape(c))
  {
    match c
    case Exec => 0
    case ExecShell => 1
    case SetExpansions => 2
    case S3Copy => 3
    case S3Get => 4
    case S3Put(_, _, _) => 5
    case S3Push => 6
    case S3Pull => 7
    case GetProject => 8
    case AttachArtifacts => 9
    case ResultsJson => 10
    case ResultsXunit => 11
    case ResultsGoTest => 12
    case ArchiveCreate(f) => if f == Zip then 13 else 14
    case ArchiveExtract(f) => if f == Zip then 15 else if f == Tarball then 16 else 17
    case HostCreate => 18
    case HostList => 19
    case ExpansionsUpdate => 20
    case ExpansionsWrite => 21
    case JsonSend => 22
    case PapertrailTrace => 23
    case PerfSend => 24
    case TimeoutUpdate => 25
  }

  /** No two entries of the registry share a name. */
  lemma NamesAreDistinct()
    ensures forall i, j | 0 <= i < j < |Entries| :: Entries[i].0 != Entries[j].0
  {
  }

  /** Every entry is filed under its own kind's canonical name. */
  lemma EntriesAreCanonical()
    ensures forall i | 0 <= i < |Entries| ::
              CanonicalName(Entries[i].1) == Some(Entries[i].0) && Shape(Entries[i].1) == Entries[i].1
  {
  }

  /** The command kind registered first under `name`, if any. */
  function Lookup(entries: seq<(string, Command)>, name: string): (r: Option<Command>)
    ensures r.Some? ==> (name, r.value) in entries
    ensures r.None? <==> forall e | e in entries :: e.0 != name
    ensures r.Some? ==>
              exists i | 0 <= i < |entries| ::
                entries[i] == (name, r.value) && forall j | 0 <= j < i :: entries[j].0 != name
  {
    if entries == [] then None
    else if entries[0].0 == name then Some(entries[0].1)
    else Lookup(entries[1..], name)
  }

  /** In a table whose names are distinct, looking up an entry's name finds
      that entry; this follows from `Lookup`'s first-match contract. */
  lemma LookupFindsEntry(entries: seq<(string, Command)>, i: nat)
    requires forall j, k | 0 <= j < k < |entries| :: entries[j].0 != entries[k].0
    requires i < |entries|
    ensures Lookup(entries, entries[i].0) == Some(entries[i].1)
  {
  }

  /** A canonical name identifies the command's kind and, for archives, its
      format: no two kinds share a name. */
  lemma CanonicalNameIdentifiesShape(c: Command, d: Command)
    requires CanonicalName(c).Some? && CanonicalName(c) == CanonicalName(d)
    ensures Shape(c) == Shape(d)
  {
    NamesAreDistinct();
    var i, j := Position(c), Position(d);
    assert Entries[i].0 == Entries[j].0;
  }

  /** Looking up a command's canonical name in the registry yields its kind. */
  lemma LookupCanonical(c: Command)
    requires CanonicalName(c).Some?
    ensures Lookup(Entries, CanonicalName(c).value) == Some(Shape(c))
  {
    NamesAreDistinct();
    LookupFindsEntry(Entries, Position(c));
  }
}
