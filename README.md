# storage-mixpanel, modelled in Dafny

storage-mixpanel moves records (events, user and group profiles, lookup
tables) from cloud object storage into Mixpanel. This project models the
parts of it that make decisions:

- the job configuration object (`components/config.js`): defaults filled by
  its constructor, byte counters, the two metadata stores, the record-type
  getter, the ordered, fail-fast validation rules, the option and credential
  records it builds, the summary, and the label padding of its progress
  display. It is the class `Config.StorageConfig`; the records it builds are
  functions of the fields they read;
- the format parser (`components/parsers.js`): the dispatch on the format
  tag, newline-delimited JSON decoded line by line, and whole-buffer JSON.
  `JSON.parse` is a parameter `decode: string -> Option<JsValue>`, a partial
  function that gives None where it would throw;
- the control skeleton of the runner (`main` in `index.js`): the method
  `Orchestrator.Run` works on a constructed configuration. It takes the
  outcomes of the stages it awaits as inputs: the storage connector, the
  upload-complete event with the destination metadata the upload stage
  stores, the log-file write and the timings. It returns how
  the run ended and the ordered trace of its effects on the upload stream,
  the storage connector, the log file and the process;
- the bucket arithmetic of the storage connector (`middleware/gcs.js`):
  the bucket name derived from the URI, and the listing metadata (names and
  total size) recorded in the configuration.

JavaScript values are the datatype `Js.JsValue`. Numbers are integers, and
`Js.Truthy` is JavaScript's truthiness. Exceptions are `Js.Error` values in
a `Result`. Files: `js.dfy` (values, property reads, default filling,
lower-casing), `text.dfy` (split/join, first-occurrence replace, padding),
`config.dfy`, `parsers.dfy`, `gcs.dfy`, `orchestrator.dfy`.

Behaviour worth knowing, as the code is written:

- `store` fills only the keys a store lacks. A second `store` of the same
  key does not overwrite the first value.
- `validate` compares the lower-cased type, but `mpOpts` tests the raw type.
  So 'GROUP' is validated as a group job but gets event-sized batches of
  2000.
- Record types that no rule names pass validation. The JSDoc record-type
  list leaves out 'table', although `validate` handles it.
- `main` reads the type getter (index.js:77) before its validation `try`. A
  non-string type therefore ends the run with a TypeError, not with the
  "invalid configuration" exit.
- An unsupported storage destroys the upload stream twice: once in the
  `default` branch and once in the `catch`.
- If waiting for the upload-complete event fails, the error is rethrown
  without destroying the upload stream.
- The parser returns undefined for any tag other than 'ndjson', 'jsonl' and
  'json' ('csv' included); it does not throw.
- The listing sums every object's size; empty objects are not filtered. An
  empty listing throws, because the sum (`reduce`) has no initial value.
- There is no glob matching: the whole bucket is listed.

## Model

| member | source | states |
|---|---|---|
| `Config.StorageConfig.constructor` | components/config.js:48-63 | storage and format are lower-cased, format defaults to 'ndjson', path to ''; missing option keys get strict/compress/verbose/abridged true and workers 10, missing destination keys region 'US' and type 'event', caller keys kept; counters 0, stores empty |
| `Config.LowerOr` | components/config.js:49-50 | `x?.toLowerCase() \|\| fallback`: a missing or empty value gives the fallback, otherwise the lower-cased value of the same length |
| `Js.ObjDefault` | components/config.js:55-56 | default filling: keys are the union, every caller key keeps its value, only absent keys take the default |
| `Js.ObjDefaultIdempotent` | components/config.js:175-182 | filling again with the same data changes nothing, so storing the same metadata twice equals storing it once |
| `Config.StorageConfig.Got` | components/config.js:167-169 | adds `num` to inBytes, 1 when omitted; only inBytes changes |
| `Config.StorageConfig.Sent` | components/config.js:171-173 | adds `num` to outBytes, but a missing or zero count adds 1; only outBytes changes |
| `Config.StorageConfig.Store` | components/config.js:175-182 | 'storage' (the default) fills only the storage metadata, 'mp' only the destination metadata, keeping existing keys; any other target changes nothing |
| `Js.ToLower` | components/config.js:138-140 | same length, each letter lower-cased, no upper-case letter left |
| `Js.ToLowerFixesLower` | components/config.js:49-50 | lower-casing text with no upper-case letter returns it unchanged, so storage and format names that are already lower-case are kept as given |
| `Config.RecordType` | components/config.js:138-140 | the type getter is defined exactly when the stored type is a string, and then returns that string lower-cased (same length, each letter lower-cased, no upper-case letter left) |
| `Config.FirstBroken` | components/config.js:266-280 | fail-fast checking of an ordered rule list succeeds, with true, iff no rule applying to the type is broken |
| `Config.FirstBrokenIsEarliest` | components/config.js:266-280 | fail-fast checking succeeds iff no rule is broken, and otherwise throws the message of the earliest broken rule |
| `Config.Validate` | components/config.js:266-280 | a non-string type throws a TypeError; every other failure is a thrown message; success always returns true |
| `Config.ValidateFollowsRules` | components/config.js:266-280 | the if-chain of `validate` equals checking the ordered rule list (table id; token for user/group; group key; secret or service account for event/table) |
| `Config.ValidateAcceptsIff` | components/config.js:266-280 | validation returns true iff the type is a string and no rule for that type is broken |
| `Config.TableIdCheckedFirst` | components/config.js:267-268 | a table job without a lookup table id throws 'missing lookup table id' whatever its secrets |
| `Config.ProfileJobsNeedToken` | components/config.js:270-275 | user and group jobs without a token throw 'missing project token'; a group job with a token throws 'missing group key' iff it has no group key |
| `Config.SecretNeededForEventsAndTables` | components/config.js:277-279 | event jobs and table jobs with an id pass iff they have an API secret or a service account, and otherwise throw 'missing API secret or service account' |
| `Config.UnknownTypesPass` | components/config.js:266-280 | a string type other than event/user/group/table always validates |
| `Config.UpperCaseTypeIsLowered` | components/config.js:138-140 | the type is compared lower-cased: 'TABLE' without an id fails as a table job |
| `Config.BareJobNeedsSecret` | components/config.js:36-39 | with no destination settings the type is 'event', and validation throws 'missing API secret or service account' |
| `Config.MpAuth` | components/config.js:197-209 | exactly the seven client credential keys, each read from its destination setting |
| `Config.MpOpts` | components/config.js:212-231 | exactly the twelve client options; batch size is 200 iff the raw type is 'group', else 2000; jsonl, no logs, no data fixing, quiet, forced streaming; compress/strict/workers/abridged copied |
| `Config.UpperCaseGroupBatchesLikeEvents` | components/config.js:227 | the raw type 'GROUP' is a group job for the getter yet gets 2000-record batches |
| `Config.StorageAuth` | components/config.js:233-263 | for 'gcs': path, format and the ten service-account fields only; otherwise path plus every credential, a credential named 'path' winning |
| `Config.Summary` | components/config.js:184-195 | keys 'mixpanel', the storage name and 'time'; the storage metadata under the storage name (unless it is 'time'), the destination metadata under 'mixpanel' (unless the storage is named 'mixpanel') |
| `Config.PadLabels` | components/config.js:87-96 | only spaces are appended; each label is a prefix of its result; both end with length max(storage length, 8) |
| `Text.Split` | components/parsers.js:12 | at least one piece, and no piece contains the separator |
| `Text.JoinSplit` | components/parsers.js:12 | joining the pieces with the separator gives back the buffer: the split loses nothing |
| `Text.SplitJoin` | components/parsers.js:12 | separator-free pieces joined and split again come back unchanged |
| `Text.SplitConcat` | components/parsers.js:12 | splitting `a + sep + b` gives the pieces of `a` followed by those of `b` |
| `Text.FirstPiece` | middleware/gcs.js:58 | the first piece is the longest separator-free prefix |
| `Text.ReplaceFirst` | middleware/gcs.js:58 | `replace` with a string pattern: only the first occurrence (as found by `Text.FindFrom`) is replaced, the text around it is kept, and a string without the pattern comes back unchanged |
| `Text.FindFrom` | middleware/gcs.js:58 | the first index at or after the start where the pattern occurs, none when absent |
| `Parsers.NonEmpty` | components/parsers.js:12 | keeps every non-empty piece and only those |
| `Parsers.Lines` | components/parsers.js:12 | `split('\n').filter(a => a)`: every line handed to the decoder is non-empty and newline-free, and every non-empty piece of the split is handed over |
| `Parsers.DecodeAll` | components/parsers.js:12 | succeeds iff every line decodes; then one record per line, in line order |
| `Parsers.ParseJsonl` | components/parsers.js:11-13 | one record per non-empty line, in order; a rejected line fails the whole call with a SyntaxError and no partial list |
| `Parsers.ParseJson` | components/parsers.js:15-17 | the whole buffer decoded as one value, or a SyntaxError |
| `Parsers.Parse` | components/parsers.js:3-7 | omitted tag and 'jsonl' behave as 'ndjson' (line decoding), 'json' decodes whole, any other tag gives undefined without throwing |
| `Parsers.DefaultTagIsNdjson` | components/parsers.js:3-5 | an omitted tag and 'jsonl' parse exactly as 'ndjson' |
| `Parsers.NonEmptyConcat` | components/parsers.js:12 | the filter keeps order across a concatenation |
| `Parsers.DecodeAllConcat` | components/parsers.js:12 | decoding concatenated lines succeeds iff both parts do, and concatenates their records |
| `Parsers.TrailingNewlineAddsNothing` | components/parsers.js:12 | a trailing newline adds no line and no record |
| `Parsers.ConcatenatedBuffers` | components/parsers.js:12 | two buffers joined by a newline give the first's records then the second's; either failing fails the whole |
| `Parsers.CarriageReturnLineReachesDecoder` | components/parsers.js:12 | only exactly-empty lines are dropped: a '\r' line is decoded, and its rejection fails the buffer |
| `Gcs.BucketName` | middleware/gcs.js:58 | the bucket has no '/', is a prefix of the path after its first "gs://" is removed, and ends there or at a '/' |
| `Gcs.BucketOfGsUri` | middleware/gcs.js:58-60 | `gs://<bucket>/<anything>` names `<bucket>`; the rest of the path plays no part |
| `Gcs.OnlyFirstSchemeRemoved` | middleware/gcs.js:58 | only the first "gs://" is removed: "gs://gs://b/x" names the bucket "gs:" |
| `Gcs.FoldAddIsSum` | middleware/gcs.js:62 | the left fold of `reduce` equals its start plus the reference sum |
| `Gcs.ReduceAdd` | middleware/gcs.js:62 | an empty list throws a TypeError; otherwise the exact sum |
| `Gcs.SumAppend` | middleware/gcs.js:62 | the sum of a concatenation is the sum of the parts |
| `Gcs.Sizes` | middleware/gcs.js:62 | one size per object, in order |
| `Gcs.FileNames` | middleware/gcs.js:61 | one name per object, same length and order as the listing |
| `Gcs.Listing` | middleware/gcs.js:61-63 | an empty listing throws; otherwise exactly 'rows' (the sum of every size) and 'files' (all names in order) |
| `Gcs.EmptyObjectsAreListed` | middleware/gcs.js:61-62 | an empty object adds its name and nothing to the total: no filtering |
| `Gcs.RecordListing` | middleware/gcs.js:61-63 | the listing is stored into the storage metadata with the default target; the destination metadata is untouched |
| `Js.GetProp` | index.js:93 | reading a property throws exactly for undefined and null |
| `Js.DeleteProp` | index.js:96 | deleting removes the key from an object and leaves other values unchanged |
| `Orchestrator.StrictRelaxation` | index.js:92-97 | fires iff the type is 'event', strict is truthy and the insert-id column is falsy, then sets strict false and deletes the column; otherwise nothing changes; missing mappings throw only once the first two conditions hold |
| `Orchestrator.StrictNeedsInsertId` | index.js:92-97 | after the adjustment an event job is strict only with an insert-id column mapped |
| `Orchestrator.StrictRelaxationIdempotent` | index.js:92-97 | a second adjustment changes nothing |
| `Orchestrator.DefaultEventJobRelaxes` | index.js:93 | with default options and no insert-id column, strict mode is turned off |
| `Orchestrator.Run` | index.js:77-162 | a non-string type throws before the gate; an invalid configuration exits with nothing else done; only 'gcs' is dispatched, others destroy the stream and throw 'unsupported storage' with the storage metadata untouched; a storage error destroys the stream before it is rethrown; success returns the summary, with the storage stage's metadata under the storage name and the upload stage's under 'mixpanel', whatever the log write does; a run that does not finish leaves the destination metadata as it was |

## Left out

- The event listeners (index.js:171-273), console output, telemetry (`track`), the timers and the rate computations: logging and floating-point reporting only.
- The progress bars themselves (components/config.js:71-78, 98-127); only the label padding of `progress` is modelled, as `Config.PadLabels` over the storage name.
- `getVersion` (package.json, environment), `in`/`out` (they read counters the class never sets) and the timing getters: I/O and clocks. The default log-file name (a date) is a constructor parameter; the stage timings in the summary are an input.
- The merge of parameters with environment variables (index.js:64-73): foreign library code and environment input. `Orchestrator.Run` starts from a constructed configuration.
- `Config.StorageConfig.constructor`: a storage or format value that is not a string (for which `toLowerCase` would throw) cannot be represented; the job parameters have typed optional fields.
- `Js.ObjDefault`: a key that is present with the value undefined counts as present.
- `Config.PadLabels`: lengths count Unicode scalar values, not the UTF-16 code units that JavaScript's `.length` counts, so a storage name with characters outside the Basic Multilingual Plane is padded differently.
- `Js.ToLower`: lower-cases ASCII letters only, not the full Unicode mapping of `toLowerCase`.
- `Js.GetProp`: `length` and inherited names (such as `toString`) are not modelled; a read of any other key of a primitive gives undefined. Only the insert-id column is read this way.
- `Js.JsValue`: numbers are integers; NaN, fractions and -0 are not modelled.
- `Config.StorageConfig.Got`, `Config.StorageConfig.Sent`: non-numeric arguments (which JavaScript would concatenate) are not modelled.
- `Parsers.Parse`: the buffer is taken as already-decoded text; the byte-to-text decoding of `toString()` is not modelled, and `JSON.parse` is the `decode` parameter.
- The storage connector's authentication, client construction, download stream and `debugger` statements (middleware/gcs.js:10-46, 67-80): foreign SDK I/O. As written, the connector reads `config.dwhAuth()` and its `query`, which components/config.js does not define; `Gcs.BucketName` is applied to a path string.
- `Gcs.Listing`: the conversion `Number(f.metadata.size)` is not modelled; object sizes are integers.
- `Orchestrator.Run`: the storage stage, the upload-complete event and the log write are inputs. mixpanel.js, transformer.js, emitter.js, csv.js, env.js and cli.js are not part of this model, so the destination metadata the upload stage stores (counts, responses, errors) is an input, recorded when the upload completes; metadata a failed upload may have stored before failing is not modelled. The log write's outcome is accepted as an input and, as in the code, does not affect the result.
- The types/types.js typedefs and the end-to-end test (it needs live storage and Mixpanel).
