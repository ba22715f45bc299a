# rockon-validator in Dafny

`rockon-validator` checks Rock-on definitions, the JSON files that describe a
Docker application for Rockstor. It decodes each file against the Rock-on
schema and writes the file back in canonical form: fields in declaration
order, map keys sorted, four-space indentation, every `omitempty` field left
out when zero, and the escaped `&`, `<` and `>` written back as the
characters. It reports whether the file was already in that form. It also
keeps the index file `root.json`, a map from each Rock-on's lower-case title
to its file name, in line with the Rock-ons checked. With `--diff` it
prints the differences, with `--write` it rewrites the files, and it ends
with an exit status.

This project models:

- **The schema** of model/rockon.go. Modules `Schema`, `SchemaFields`,
  `SchemaOutput` and `SchemaRoundTrip` cover:
  - the Go types as datatypes;
  - how `json.Unmarshal` fills them:
    - a struct field is found by its tag, up to ASCII case, and unknown
      keys are dropped;
    - `null` makes a map, slice or pointer nil and leaves a string, a
      boolean or a struct as it was; it is an error for a `UintValue` and
      gives `"0"` for a `StrValue`;
    - a repeated key decodes into what the earlier occurrence left: a
      string or number is replaced, a map gains the new members, a struct
      or the target of a pointer keeps the fields the new object leaves
      out, and a slice takes the new length, its leading elements decoded
      over the old ones;
    - a `[2]string` is padded or truncated;
  - `RockonDetails.MarshalJSON`, which drops an empty `ui`;
  - `RockOn.ToJSON`, both the encoder's text and the three `ReplaceAll`
    steps after it.
- **The lenient scalars** `UintValue` and `StrValue` (`Scalars`), with:
  - the parts of `strconv` they use (`StrConv`);
  - the JSON grammar as `json.Valid` accepts it (`JsonParser`);
  - the indented printer of `encoding/json` (`Json`, `JsonRoundTrip`);
  - the textual post-pass (`PostPass`).
- **The older schema** of rockon.go (`Legacy`, `LegacyFields`,
  `LegacyOutput`, `LegacyRoundTrip`). It differs from the main schema in
  these ways:
  - two-space indentation;
  - `ui` dropped on an empty slug alone;
  - plain `int` numbers;
  - `volumes` always written;
  - `custom_config` a pointer to a map;
  - no `container_links` and no environment `default`.
- **`checkRootMap`** (`Index.RootIndex.CheckRootMap`): an imperative method
  on the index. Its search loop goes over the keys in an order of its own
  choosing, mirroring Go's unspecified map order. It drops a stale key and
  then stores the lower-case title.
- **The main loop of main.go** (`Validator.Program`), as a class with one
  method per stage:
  - reading the index on the first file;
  - skipping the index file;
  - the schema verdict;
  - the panics, the diff flag, the writes and the exit codes.

  The file system is a `FileSystem` object: a map from path to contents,
  plus the paths on which `Stat` or `WriteFile` fails. Each method is proved
  equal to a step function (`LoadIndexStep`, `CheckFileStep`, `RecordStep`,
  `FileStep`, `RunFrom`, `FinishStep`, `Outcome`). The properties of the run
  are lemmas about those functions.
  - The loop is proved for any `Library`. A `Library` bundles the schema's
    verdict and Go's `filepath.Clean`, `Ext`, `Base` and `Dir`/`Join`.
  - The constructor fixes the program's own library, `Real()`. It is built
    from `Judge` (`Schema.Unmarshal` then `Schema.ToJSON`) and the `Paths`
    functions.

Where the general description of the tool and the code disagree, the model
follows the code:

- With `--write`, every Rock-on that is checked is rewritten, and so is the
  index, whether or not its text changed (main.go:277-285, 301-313).
- The exit status after a divergence is 1, not a count of divergent files.
  A divergent index never sets it (main.go:262-264, 323-330).
- `--check` changes nothing: the behaviour is the same with or without it.
- `checkRootMap` updates the in-memory index whatever the flags say
  (main.go:139, 145).

## Model

| member | source | states |
|---|---|---|
| Scalars.UintAccepts | model/rockon.go:71-86 | a `UintValue` decodes exactly when it is a number or a string whose text is a non-empty run of decimal digits no larger than the 64-bit `uint` maximum, and the value is then that decimal number |
| Scalars.UintRejects | model/rockon.go:79-82 | empty text, a sign, a decimal point or a value past the `uint` maximum is an error, quoted or bare |
| Scalars.UintQuotedLikeBare | model/rockon.go:73-79 | `"n"` and the bare `n` decode to the same result |
| Scalars.UintLeadingZeros | model/rockon.go:79-84 | a leading zero in quoted digits does not change the value |
| Scalars.UintSeven | model/rockon.go:73-84 | `"007"` decodes to 7 |
| Scalars.UintRoundTrip | model/rockon.go:69-86 | every `uint`, written as a bare number or as its digits in quotes, decodes back to itself |
| Scalars.UintBridge | model/rockon.go:71-86 | `UnmarshalJSON` on the raw text of a value agrees with the decoder on the parsed value |
| Scalars.StrAccepts | model/rockon.go:131-143 | a quoted string decodes to its content; `null` goes the integer path and gives `"0"` |
| Scalars.StrOfInteger | model/rockon.go:135-140 | a bare 64-bit integer decodes to its `Itoa` text |
| Scalars.StrFortyTwo | model/rockon.go:135-140 | the bare number 42 decodes to `"42"` |
| Scalars.StrRejects | model/rockon.go:135-138 | a number with a fraction or exponent, and a boolean, are errors |
| Scalars.StrRoundTrip | model/rockon.go:129-134 | a `StrValue` written as a string decodes back to itself |
| Scalars.StrBridge | model/rockon.go:131-143 | `UnmarshalJSON` on the raw text agrees with the decoder on the parsed value |
| StrConv.ParseUintFormat | model/rockon.go:79 | `ParseUint` reads back every `uint` that `FormatUint` writes |
| StrConv.ParseIntItoa | model/rockon.go:135-140 | `ParseInt` reads back every 64-bit `int` that `Itoa` writes |
| StrConv.DecimalValueLeadingZero | model/rockon.go:79 | a leading zero keeps a digit string's value |
| SchemaFields.UISlugKeys | model/rockon.go:43-46 | the slug object holds `https` exactly when it is set and `slug` exactly when it is non-empty, in that order |
| SchemaFields.PortKeys | model/rockon.go:88-94 | a port writes `description`, `label`, `host_default` always (even 0), then `protocol` when non-empty and `ui` when true |
| SchemaFields.VolumeKeys | model/rockon.go:103-107 | a volume writes `description`, `label`, and `min_size` only when non-zero |
| SchemaFields.EnvironmentKeys | model/rockon.go:121-126 | an environment variable writes `description`, `label`, then `index` when non-zero and `default` when non-empty |
| SchemaFields.DeviceKeys | model/rockon.go:145-149 | a device writes `description`, `label`, and `index` only when non-zero |
| SchemaFields.ContainerKeys | model/rockon.go:56-66 | a container writes `image`, `tag` when non-empty, `launch_order` and `ports` always, then each of `volumes`, `opts`, `cmd_arguments`, `environment`, `devices` exactly when non-empty |
| SchemaFields.DetailsKeys | model/rockon.go:30-54 | the details write `description`, `version`, `website`, then `icon` and `more_info` when non-empty, `ui` exactly when it points at a non-zero slug, `volume_add_support` when true, `containers` always, then `container_links` and `custom_config` when non-empty |
| SchemaRoundTrip.UISlugRoundTrip | model/rockon.go:43-46 | a slug reads back from its encoding as itself |
| SchemaRoundTrip.PortRoundTrip | model/rockon.go:88-94 | a port reads back as itself |
| SchemaRoundTrip.VolumeRoundTrip | model/rockon.go:103-107 | a volume reads back as itself |
| SchemaRoundTrip.EnvironmentRoundTrip | model/rockon.go:121-126 | an environment variable reads back as itself |
| SchemaRoundTrip.DeviceRoundTrip | model/rockon.go:145-149 | a device reads back as itself |
| SchemaRoundTrip.LinkRoundTrip | model/rockon.go:156-159 | a container link reads back as itself |
| SchemaRoundTrip.PairsRoundTrip | model/rockon.go:109-119 | a list of two-string options or arguments reads back as itself, nil included |
| SchemaRoundTrip.ContainerRoundTrip | model/rockon.go:56-66 | a container reads back as its canonical form: empty omitted maps and slices come back nil |
| SchemaRoundTrip.DetailsRoundTrip | model/rockon.go:30-54 | the details read back as their canonical form: an empty slug is gone, empty omitted maps come back nil |
| SchemaRoundTrip.RockOnRoundTrip | model/rockon.go:11-54 | a Rock-on map reads back from its encoding as its canonical form |
| SchemaRoundTrip.CanonEncodes | model/rockon.go:48-54 | a Rock-on and its canonical form have the same encoding |
| SchemaRoundTrip.CanonIdempotent | model/rockon.go:48-54 | the canonical form is its own canonical form |
| SchemaOutput.RockOnWellFormed | model/rockon.go:11-19 | every number the encoder writes is an integer lexeme |
| SchemaOutput.ToJSONShape | model/rockon.go:13-28 | the output ends with a newline and contains none of the escapes of `&`, `<`, `>` |
| SchemaOutput.ToJSONPlain | model/rockon.go:13-27 | when no string of the Rock-on already holds one of those escapes, the output is the document printed with HTML escaping off throughout |
| SchemaOutput.ToJSONReadsBack | model/rockon.go:13-28 | then the output is valid JSON, parses to the Rock-on's encoding, and decodes to its canonical form |
| SchemaOutput.ToJSONCanon | model/rockon.go:13-28 | a Rock-on and its canonical form are written alike |
| SchemaOutput.ToJSONIdempotent | model/rockon.go:13-28 | canonicalising is idempotent: the written text decodes, and writing what it decodes to gives the same text |
| JsonRoundTrip.ParsePrinted | model/rockon.go:15-19 | indented text of any value with integer numbers, followed by the newline, parses back to that value |
| JsonRoundTrip.PrintParse | model/rockon.go:15-19 | the parser reads a printed value back and leaves whatever follows it |
| PostPass.ReplaceRemoves | model/rockon.go:24-26 | after replacing a pattern by a character not in it, the pattern no longer occurs |
| PostPass.ReplaceKeepsAbsent | model/rockon.go:24-26 | a later replacement does not bring back a pattern an earlier one removed |
| PostPass.ReplaceFinalNewline | model/rockon.go:24-26 | the replacements leave the final newline where it is |
| PostPass.UnescapeRemoves | model/rockon.go:24-26 | after the three replacements none of the three escapes occurs |
| PostPass.EscapeReplace | model/rockon.go:24-26 | on a string literal that does not already hold the escape, replacing it is the same as writing the literal without escaping that character |
| PostPass.PrintReplace | model/rockon.go:24-26 | on a whole printed document whose strings do not hold the escape, the same holds |
| PostPass.UnescapePrinted | model/rockon.go:16-26 | the three replacements turn the HTML-escaped text into the text printed with HTML escaping off |
| PostPass.EscapeTextCorrupted | model/rockon.go:24-26 | a string whose own content is the six characters of the `&` escape is written as a literal that the replacement turns into invalid JSON |
| Scalars.UintOfJson | model/rockon.go:79-86 | a decoded `UintValue` is at most the `uint` maximum |
| Index.RootIndex.CheckRootMap | main.go:118-148 | panics exactly when the Rock-on map is nil or empty or the index is nil, leaving the index; otherwise, for a title among the Rock-on's keys, the search outcome is one the map allows (matched under the lower-case title, found under another key, or absent) and the new index is the old one without that other key, with the lower-case title set to the file |
| Index.ReconcileFrame | main.go:119-145 | after the call the lower-case title maps to the file, a stale key is gone and the size drops accordingly, and every other entry is unchanged |
| Index.ReconcileInjective | main.go:134-145 | an index with at most one key per file keeps that property |
| Index.ReconcileSettles | main.go:118-148 | for such an index a second call with the same file and title can only take the matching branch and changes nothing |
| Index.IndexTextParses | main.go:299 | the index as written is valid JSON of its encoding |
| Index.IndexRoundTrip | main.go:226-231 | the index's encoding decodes back to the same map, nil included |
| Validator.ParseFileArgs | main.go:68-76 | `None` (status 2) exactly when some argument matches nothing, otherwise all matches in order |
| Validator.Program.LoadIndex | main.go:203-233 | the index is read from `root.json` beside the file unless `--root` was given; status 4 when unreadable, 5 when not JSON, 1 when not a string map; otherwise its text and map are kept, and on an early stop the entries are left as they were |
| Validator.Program.CheckFile | main.go:235-254 | the index file is skipped; a file that is not a Rock-on stops with 1 when it ends in `.json` and is skipped otherwise; a nil or empty Rock-on or a nil index panics (2); otherwise the entries become those of `Reconciled`, `checkRootMap` for one of the Rock-on's titles, and the file is recorded; in every other case the entries are unchanged |
| Validator.Program.UpdateIndex | main.go:254 | the panic conditions of `checkRootMap`; without a panic the entries after it are those of `Reconciled` for the file's base name and one of the Rock-on's titles |
| Validator.Program.Record | main.go:256-285 | the divergence flag is set when the text differs from `ToJSON`'s, the diff kept with `--diff`, and with `--write` the file is rewritten (2 when it cannot be stat'ed, 6 when not writable) |
| Validator.Program.ProcessFile | main.go:185-254 | status 1 for an unreadable file, 3 for invalid JSON, the index read on the first file, then the check; the entries afterwards are those `IndexAfterFile` allows: the index as loaded, then reconciled when the file is a Rock-on other than the index |
| Validator.Program.Finish | main.go:299-330 | with `--write` the index is written (mode from the index file or the last Rock-on, else a panic; 7 when not writable); the index diff kept with `--diff`; status 1 exactly when some file diverged and `--diff` is off, else 0 |
| Validator.Program.Run | main.go:179-330 | the run's status and final files, diffs and log are those of `Outcome`, the whole run as a function of the options, files, glob matches and final index; the final entries are those `IndexAfterRun` allows, one `IndexAfterFile` step per matched file in order, and unchanged when some argument matches no file (the stop with status 2, malformed patterns included) |
| Validator.ExitStatus | main.go:323-330 | a run that reaches the end exits with 1 exactly when some checked Rock-on was not canonical and `--diff` is off, and with 0 otherwise; the index text never changes the status |
| Validator.RunFromCodes | main.go:185-286 | a file that stops the loop does so with a status from 1 to 6 |
| Validator.OutcomeCodes | main.go:185-330 | every status is between 0 and 7; 7 only for an unwritable index with `--write`; 3 to 6 only from the loop |
| Validator.ReadOnly | main.go:277-313 | without `--write` no file is changed |
| Validator.FileStepKeepsIndex | main.go:203-233 | once read, the index path, text and nil-ness stay the same over a file |
| Validator.LoadedStays | main.go:203-233 | and over the rest of the run |
| Validator.IndexFromFirstFile | main.go:203-233 | the index path is fixed by the first file, `root.json` beside it unless `--root` is given, and is loaded after it |
| Validator.CanonicalChecksClean | main.go:262-264 | a file already in canonical form does not set the divergence flag |
| Validator.JudgeRecheck | main.go:243-264 | for a decoded Rock-on none of whose strings already holds the text of an escape (`SafeRockOn`), what `ToJSON` writes is valid JSON that decodes to its canonical form under the same names and is written identically |
| Validator.RecheckIsClean | main.go:256-264 | so checking a rewritten file again does not set the divergence flag, for a Rock-on meeting the same `SafeRockOn` requirement |
| LegacyFields.UISlugKeys | rockon.go:40-42 | the legacy slug object holds `slug` exactly when it is non-empty |
| LegacyFields.PortKeys | rockon.go:64-70 | a legacy port writes `description`, `label`, `host_default` always, `protocol` when non-empty, `ui` when true |
| LegacyFields.VolumeKeys | rockon.go:79-83 | a legacy volume writes `min_size` only when non-zero |
| LegacyFields.EnvironmentKeys | rockon.go:97-101 | a legacy environment variable writes `index` only when non-zero, and has no `default` |
| LegacyFields.DeviceKeys | rockon.go:103-107 | a legacy device writes `index` only when non-zero |
| LegacyFields.ContainerKeys | rockon.go:52-62 | a legacy container always writes `launch_order`, `ports` and `volumes`; `tag`, `opts`, `cmd_arguments`, `environment`, `devices` only when non-empty |
| LegacyFields.DetailsKeys | rockon.go:28-50 | the legacy details write `ui` exactly when its slug is non-empty, and `custom_config` exactly when the pointer is not nil, even to an empty map |
| LegacyFields.NilPointerNotCanonical | rockon.go:37 | a pointer to a nil map is written as `custom_config`, but reads back as a nil pointer, which is written without it |
| LegacyFields.IntRejectsString | rockon.go:67 | a quoted `host_default` is a type error |
| LegacyFields.IntNullKeeps | rockon.go:67 | a `null` `host_default` leaves the port as it was |
| LegacyFields.LinksIgnored | rockon.go:28-38 | a `container_links` key is dropped |
| LegacyFields.DefaultIgnored | rockon.go:97-101 | an environment `default` key is dropped |
| LegacyRoundTrip.PortRoundTrip | rockon.go:64-70 | a legacy port reads back as itself |
| LegacyRoundTrip.ContainerRoundTrip | rockon.go:52-62 | a legacy container reads back as its canonical form |
| LegacyRoundTrip.DetailsRoundTrip | rockon.go:28-50 | the legacy details read back as their canonical form |
| LegacyRoundTrip.RockOnRoundTrip | rockon.go:9-50 | a legacy Rock-on reads back from its encoding as its canonical form |
| LegacyRoundTrip.CanonEncodes | rockon.go:44-50 | without a pointer to a nil map, a legacy Rock-on and its canonical form have the same encoding |
| LegacyRoundTrip.DecodedNoNil | rockon.go:37 | a decoded legacy Rock-on never holds a pointer to a nil map |
| LegacyRoundTrip.CanonIdempotent | rockon.go:44-50 | the legacy canonical form is its own canonical form |
| LegacyOutput.ToJSONShape | rockon.go:11-26 | the legacy output ends with a newline and holds none of the three escapes |
| LegacyOutput.ToJSONPlain | rockon.go:11-25 | without those escapes in its strings, it is the two-space document with HTML escaping off |
| LegacyOutput.ToJSONReadsBack | rockon.go:11-26 | and it parses and decodes to the canonical form |
| LegacyOutput.ToJSONIdempotent | rockon.go:11-26 | legacy canonicalising is idempotent |
| LegacyOutput.DecodedIdempotent | rockon.go:11-26 | it is idempotent on everything the legacy decoder produces whose strings hold no escape text (`SafeRockOn`) |
| Text.SortedKeys | main.go:296-299 | the keys of a map, each once, in strictly increasing byte order, as `encoding/json` writes them |
| Text.ToLower | main.go:133 | lower-cases each character |
| Text.TrimPrefix | main.go:268-269 | drops the prefix exactly when the string starts with it |
| Paths.Ext | main.go:245 | the extension is a suffix of the path, empty or a dot followed by no dot or slash, and empty only when the last element has no dot |
| Paths.Base | main.go:254 | the last element of a path: `.` for the empty path, `/` exactly when the path is all slashes, otherwise the final slash-free piece of the path with its trailing slashes trimmed |
| Paths.CleanNormalForm | main.go:236 | `filepath.Clean` writes out the resolved elements: none is empty or `.`, `..` comes only in a leading run of a relative path and never after the root, and `.` (or `/`) stands for no element |
| Paths.CleanIdempotent | main.go:236 | cleaning a cleaned path changes nothing |
| Paths.CleanPlainPath | main.go:236 | a non-empty path none of whose elements is empty, `.` or `..` (the empty one before a leading slash aside) is its own `Clean` |
| Paths.CleanSlashes | main.go:236 | a path of slashes only cleans to `/` |
| Paths.Dir | main.go:205 | `filepath.Dir` is never empty: `.` for a path without a slash, `/` for a path of slashes only |
| Paths.DirClean | main.go:205 | what `Dir` gives is already clean |
| Paths.JoinClean | main.go:205 | `filepath.Join` of a clean directory and a plain name: the name alone beside `.`, `/` and the name beside the root, the directory, a slash and the name otherwise |
| Validator.RootBeside | main.go:204-205 | the index beside a file: `root.json` when the file name has no slash; otherwise `root.json` after `Dir` of the file and a slash, `/root.json` in the root |

## Left out

- Flag parsing, the usage text and the logger (main.go:24-66, 102-116, 150-177). The options reach the model as a value, and `--check` has no effect there.
- Glob expansion and the file system. The matches of each argument are an input. Reading, statting and writing go to a `FileSystem` object, and the file modes are reduced to whether a stat succeeded.
- The unified diff (gotextdiff/myers). Only the `a/` and `b/` names and the two texts are recorded.
- The commented-out directory recursion (main.go:77-97).
- The `ToJSON` error path (main.go:257-260), since encoding a Rock-on cannot fail.
- Go's Unicode case folding. Field names and `strings.ToLower` fold ASCII letters only.
- Text as bytes. Strings are sequences of characters, and invalid UTF-8 is not modelled.
- `json.MarshalIndent` of the index is modelled by the same printer as the Rock-ons, with two spaces and no final newline. The exact bytes of Go's encoder are not proved against Go.
- Go's map iteration order. The search loop of `checkRootMap` and the choice of title among several Rock-on keys are a choice of the model, so the contracts hold for every order.
- Validator.Program.Run: the final index entries are stated as a relation (`IndexAfterRun`), not computed, because the search order of `checkRootMap` and the choice of title make them nondeterministic. For the same reason `Outcome` takes the final index text as a parameter rather than deriving it.
- Validator.Program.Run: the loop is proved for any `Library`. The constructor fixes `Real()`, and the schema facts about `Real()` are proved in `JudgeRecheck`.
- SchemaOutput.ToJSONIdempotent: requires that no string of the Rock-on already contains the text of one of the three escapes. It needs this because the post-pass is not JSON-aware. A string holding a backslash, `u`, `0026` is written as a literal that the post-pass corrupts (`PostPass.EscapeTextCorrupted`), and such a file does not read back at all.
- SchemaOutput.ToJSONReadsBack: the same requirement, for the same reason.
- LegacyOutput.ToJSONIdempotent: requires also that `custom_config` is not a pointer to a nil map. Such a value is written as `null` and then reads back as a nil pointer (`LegacyFields.NilPointerNotCanonical`). It never comes out of the decoder (`LegacyRoundTrip.DecodedNoNil`), so `LegacyOutput.DecodedIdempotent` states idempotence for every decoded legacy Rock-on whose strings contain no escape text.
- LegacyOutput.ToJSONReadsBack: the same string requirement as the main schema.
- LegacyOutput.DecodedIdempotent: requires the same `SafeRockOn` string condition, since a decoded string may hold escape text that the post-pass corrupts.
- Validator.JudgeRecheck: requires `SafeRockOn` of the decoded Rock-on, for the reason given for `SchemaOutput.ToJSONIdempotent`. A file whose strings hold escape text is rewritten to text that need not read back.
- Validator.RecheckIsClean: the same `SafeRockOn` requirement as `Validator.JudgeRecheck`.
- GoJson.DecodeElements: an array element beyond the old slice's length is decoded from the zero value. Go keeps a slice's backing array and decodes into stale elements still within its capacity. Slice capacity is not modelled, so a key repeated with an array that shrinks and then grows can differ. Example: `opts` given as `[["a","b"],["c","d"]]`, then `[["e","f"]]`, then `[["g","h"], null]`. Go gives `[["g","h"],["c","d"]]` and the model gives `[["g","h"],["",""]]`. Link structs behave the same way.
- The legacy schema is not wired into the main loop, as in the program, which uses the main schema only.
