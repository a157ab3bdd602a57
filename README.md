# shrub command registry — validation and resolution

shrub describes the steps of a CI pipeline as typed command values. Each
command type checks its own fields (`Validate`) and converts itself into a
generic `CommandDefinition` — a canonical `family.action` name plus a
parameter map — for an execution engine (`Resolve`). The parameter map comes
from `exportCmd`, which marshals the command's fields and panics when that
fails. The behaviour modelled here is the behaviour the operations test suite
pins down:

- which field combinations each command accepts;
- the exact canonical name each well-formed command resolves to, including the
  archive names that depend on the format;
- that a command failing validation never yields a definition;
- that a command whose marshalling fails never yields a parameter map.

Layout:

- `wrappers.dfy` (`Wrappers`): `Option` (Go's nil-or-value) and `Result` (a
  value or a fault).
- `commands.dfy` (`Commands`): one `Command` constructor per command type. The
  archive format is `Zip | Tarball | Auto | Other(text)`, where `text` is never
  "auto" (the subset type `UnknownFormat`). Also `Validate` and `CanonicalName`.
- `registry.dfy` (`Registry`): the canonical name table (`Entries`), the
  lookup a consumer uses to dispatch on a name, and the proof that names
  identify commands.
- `export.dfy` (`Export`): `Params`, `CommandDefinition`, `Marshal`,
  `ExportCmd`, `Resolve`, and the command-interface view `AnyCommand`. That
  view also holds the suite's `unmarshableCmd`. `Decode` reads a definition
  back into a command, and the round-trip lemma relates it to `Resolve`.
- `operations_test.dfy` (`OperationsTest`): the suite's two case tables and
  its marshalling test, stated as lemmas.

A Go panic is a `Failure` carrying a `Fault`:

- `Invalid` when `Resolve` gets a command that fails validation;
- `Marshaling` when `exportCmd` cannot marshal;
- `Unresolvable` for a `Resolve` that always panics.

`Resolve` validates again before it exports. The suite requires this, since
an invalid command must panic in `Resolve`.

## Model

| member | source | states |
|---|---|---|
| Commands.Validate | operations_test.go:64-77 | S3 put passes exactly when key, secret and local file are all non-empty, and its error names exactly the empty ones. Archive create passes exactly for ZIP or TARBALL. Archive extract passes exactly for ZIP, TARBALL or "auto". A rejected format is reported. Every other command passes with zero-value fields. A passing command has a canonical name. |
| Commands.MissingS3PutFields | operations_test.go:66-70 | Each of AWSKey, AWSSecret and LocalFile is listed exactly when it is empty. The list is empty exactly when all three are present. |
| Commands.CanonicalName | operations_test.go:10-37 | An archive command has no name exactly when its format has no action of its kind: create with anything but ZIP or TARBALL, or extract with a format outside the set. Every name contains a dot that is neither its first nor its last character. |
| Registry.Position | operations_test.go:10-37 | Every command with a canonical name has its kind in the registry, filed under that name. |
| Registry.NamesAreDistinct | operations_test.go:10-37 | No two registry entries share a name. |
| Registry.EntriesAreCanonical | operations_test.go:10-37 | Every registry entry is filed under its own command's canonical name. |
| Registry.Lookup | operations_test.go:43-47 | A found kind is an entry under the name, and it is the first entry carrying that name. Nothing is found exactly when no entry carries the name. |
| Registry.LookupFindsEntry | operations_test.go:43-47 | In a table with distinct names, looking up an entry's name returns that entry's command. |
| Registry.CanonicalNameIdentifiesShape | operations_test.go:24-28 | Two commands with the same canonical name are the same kind, with the same archive format. |
| Registry.LookupCanonical | operations_test.go:43-47 | Looking up a command's canonical name returns its kind. |
| Export.Marshal | operations_test.go:60-62 | Marshalling fails exactly for the foreign command whose marshalling always errors. A registry command marshals to its own field map. |
| Export.ExportCmd | operations_test.go:87-92 | exportCmd fails exactly when marshalling fails, with a marshalling fault. Otherwise it returns the marshalled map. |
| Export.Resolve | operations_test.go:43-84 | Resolve succeeds exactly when Validate passes, and fails with the validation error otherwise. On success the definition's name is the command's canonical name and its parameters are the command's fields. |
| Export.ValidateAny | operations_test.go:58 | Through the interface, a registry command validates as itself and the foreign command always passes. |
| Export.ResolveAny | operations_test.go:57-59 | Through the interface, a command that fails validation yields no definition. A definition comes out exactly for a valid registry command, so never for the foreign one. |
| Export.DecodeFields | operations_test.go:43-47 | A definition with a command's canonical name and field map decodes back to that command. |
| Export.DecodeResolve | operations_test.go:43-47 | Every well-formed command resolves, and its definition decodes back to that same command. |
| Export.ResolveIsInjective | operations_test.go:10-37 | Two well-formed commands that resolve to the same definition are equal. |
| Export.ResolvedNameIdentifiesKind | operations_test.go:24-28 | Two resolved definitions with the same name come from the same kind and the same archive format. |
| OperationsTest.WellFormedCasesFollowRegistry | operations_test.go:10-37 | The well-formed table has the registry's keys in the registry's order, and each case is of the kind its entry names. |
| OperationsTest.CaseKeysAreDistinct | operations_test.go:10-73 | The keys of the well-formed table are distinct, and so are the labels of the poorly formed table. |
| OperationsTest.WellFormedCasesAreCanonical | operations_test.go:10-41 | Every well-formed case validates, and its key is its canonical name. |
| OperationsTest.WellformedOperations | operations_test.go:9-51 | Every well-formed case validates and resolves, and the name is exactly its key. |
| OperationsTest.PoorlyFormedOperations | operations_test.go:64-85 | Every poorly formed case fails validation, and Resolve returns no definition for it. |
| OperationsTest.AlwaysFailsWhenCannotMarshal | operations_test.go:87-92 | Exporting the unmarshalable command is a marshalling fault, and resolving it also fails. |

## Left out

- The implementation files (the command types, `exportCmd` and `CommandDefinition`) are not part of this model. The rules come from operations_test.go. Where the tests pin only some inputs, the model extends them to a closed format set (any format outside it is rejected) and to errors that name what is wrong:
  - `ArchiveCreate` with a format outside the set (such as "bleh") is rejected, like extraction with one;
  - an S3 put with only its key, or only its secret, is rejected, like the tested combinations;
  - the error payloads `MissingFields(names)` and `UnsupportedFormat(format)` are the model's own; the source's error values are not part of this model.
- Fields that the tests do not use, and any validation of them, are not modelled. All other command types are modelled without fields. The test gives them zero values and expects them to pass.
- The string values of the ZIP and TARBALL constants are not modelled. The format is a closed datatype. `Other(text)` stands for every string outside the set; its type excludes "auto", so `Auto` is the only representation of "auto". A `text` equal to the unknown ZIP or TARBALL strings is not excluded.
- The JSON encoding inside `exportCmd` is not modelled. Params are a field-name-keyed map of field values, with Go field names as keys. These keys are the model's choice, because the JSON tags are not part of this model. Marshalling is modelled only by whether it fails.
- Export.Marshal: assumes every registry command marshals successfully, because none of the modelled fields (strings and the format) can fail to encode.
- Go panic and recover are not modelled. A panic is a failed `Result`, and the recovery helpers `catch` and `expect` are test plumbing.
- The error message texts are not modelled. Only which fields are missing and which format was rejected are kept.
- `Name()` is not modelled as a separate operation. For registry commands the canonical name stands in for it. The foreign command's display name "foo" is never used.
- `FunctionName` is not modelled. It appears only in a failure message.
- Subtests and the iteration order of the case maps are not modelled. The tables are sequences whose keys are distinct (`OperationsTest.CaseKeysAreDistinct`).
- Commands.CanonicalName: states that every name contains an inner dot, not that it contains exactly one; the exact `family.action` split is shown only by the literal names themselves.
- Idempotence of `Validate` needs no lemma, because `Validate` is a function of the command's value.
- The execution engine and the S3, archive, host and network work that commands trigger are external I/O and are not modelled.
