/** The behaviour the operations test suite pins down, as lemmas over its
    own case tables. */
module OperationsTest {
  import opened Wrappers
  import opened Commands
  import opened Registry
  import opened Export

  /** The well-formed cases: each command with the name it must resolve to. */
  const WellFormedCases: seq<(string, Command)> := [
    ("subprocess.exec", Exec),
    ("shell.exec", ExecShell),
    ("downstream_expansions.set", SetExpansions),
    ("s3Copy.copy", S3Copy),
    ("s3.get", S3Get),
    ("s3.put", S3Put("foo", "bar", "baz")),
    ("s3.push", S3Push),
    ("s3.pull", S3Pull),
    ("git.get_project", GetProject),
    ("attach.artifacts", AttachArtifacts),
    ("attach.results", ResultsJson),
    ("attach.xunit_results", ResultsXunit),
    ("gotest.parse_files", ResultsGoTest),
    ("archive.zip_pack", ArchiveCreate(Zip)),
    ("archive.targz_pack", ArchiveCreate(Tarball)),
    ("archive.zip_extract", ArchiveExtract(Zip)),
    ("archive.targz_extract", ArchiveExtract(Tarball)),
    ("archive.auto_extract", ArchiveExtract(Auto)),
    ("host.create", HostCreate),
    ("host.list", HostList),
    ("expansions.update", ExpansionsUpdate),
    ("expansions.write", ExpansionsWrite),
    ("json.send", JsonSend),
    ("papertrail.trace", PapertrailTrace),
    ("perf.send", PerfSend),
    ("timeout.update", TimeoutUpdate)
  ]

  /** The poorly formed cases, each labelled as in the suite. */
  const PoorlyFormedCases: seq<(string, Command)> := [
    ("s3put.empty", S3Put("", "", "")),
    ("s3put.nocreds", S3Put("", "", "baz")),
    ("s3put.nofile", S3Put("foo", "bar", "")),
    ("s3put.nosecret", S3Put("foo", "", "baz")),
    ("s3put.nokey", S3Put("", "bar", "baz")),
    ("archive.create_auto", ArchiveCreate(Auto)),
    ("archive.invalid", ArchiveExtract(Other("bleh")))
  ]

  /** The well-formed table is the registry, row for row: the same keys in
      the same order, and each case of the kind its entry names. */
  lemma WellFormedCasesFollowRegistry()
    ensures |WellFormedCases| == |Entries|
    ensures forall i | 0 <= i < |WellFormedCases| ::
              WellFormedCases[i].0 == Entries[i].0 && Shape(WellFormedCases[i].1) == Entries[i].1
  {
  }

  /** The keys of each case table are distinct, as keys of a map literal are. */
  lemma CaseKeysAreDistinct()
    ensures forall i, j | 0 <= i < j < |WellFormedCases| :: WellFormedCases[i].0 != WellFormedCases[j].0
    ensures forall i, j | 0 <= i < j < |PoorlyFormedCases| :: PoorlyFormedCases[i].0 != PoorlyFormedCases[j].0
  {
    WellFormedCasesFollowRegistry();
    NamesAreDistinct();
  }

  /** Every well-formed case validates and carries its key as canonical name. */
  lemma WellFormedCasesAreCanonical()
    ensures forall i | 0 <= i < |WellFormedCases| ::
              Validate(WellFormedCases[i].1).None? && CanonicalName(WellFormedCases[i].1) == Some(WellFormedCases[i].0)
  {
  }

  /** Every well-formed case validates, and resolves to a definition named
      exactly by its key. */
  lemma WellformedOperations()
    ensures forall i | 0 <= i < |WellFormedCases| ::
              && Validate(WellFormedCases[i].1).None?
              && Resolve(WellFormedCases[i].1).Success?
              && Resolve(WellFormedCases[i].1).value.commandName == WellFormedCases[i].0
  {
    WellFormedCasesAreCanonical();
  }

  /** Every poorly formed case fails validation, and resolving it yields no
      definition. */
  lemma PoorlyFormedOperations()
    ensures forall i | 0 <= i < |PoorlyFormedCases| ::
              && Validate(PoorlyFormedCases[i].1).Some?
              && Resolve(PoorlyFormedCases[i].1).Failure?
  {
  }

  /** Exporting the command whose marshalling always errors is a marshalling
      fault, not a parameter map; resolving it yields nothing either. */
  lemma AlwaysFailsWhenCannotMarshal()
    ensures ExportCmd(Unmarshalable("sad")).Failure?
    ensures ExportCmd(Unmarshalable("sad")).error.Marshaling?
    ensures ValidateAny(Unmarshalable("sad")).None? && ResolveAny(Unmarshalable("sad")).Failure?
  {
  }
}
