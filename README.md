# gisaid_cli, modelled in Dafny

`gisaid_cli` uploads SARS-CoV-2 sequence submissions to the GISAID registry. This project
models its core:

- **FASTA reading** (`load_sequences`, module `IoUtils`): a line-driven reader that keeps a
  current header and a list of body lines and builds a dictionary from header to sequence.
  The file is the sequence of lines Python's file iteration yields. `LoadSequences` is the
  source's loop, with its invariants, proved equal to the specification `SequencesOf`. As in
  the source, lines before the first header are collected into `body_lines` and dropped when
  that header resets it. The rules about headers, body lines, flushing, empty records,
  duplicate headers and lines before the first header are lemmas about `SequencesOf`.
- **Metadata/sequence join** (`generate_submissions`, module `Submissions`): the source's loop
  as `GenerateSubmissions`, proved equal to the specification `Join`. It also returns the set
  of sequence names that no metadata item claimed. Order, multiplicity, contents and the
  set-difference properties are lemmas.
- **Records** (`models.py`, module `Models`): `empty_string_to_none`, and the `Metadata`,
  `Submission` and `AuthToken` shapes. The parts of pydantic the tool relies on are modelled:
  - `model_validate` gives a `Result` that names every failing field, and ignores keys that
    are not fields;
  - the `None` default of the optional fields and the `"v 3.0.4"` default of `st`;
  - `model_dump`, optionally by serialization alias (`_subm_confirmed`, `_st`).
- **The GISAID client** (`gisaid.py`, module `Gisaid`): password hashing, the `call_api`
  envelope, `request_auth_token`, and the `GisaidSession` state machine (`open`, `close`,
  `submit`, `__aenter__`/`__aexit__`).
  - This file is imperative, so `GisaidClient` and `GisaidSession` are classes. Their methods
    update a ghost trace of sent request bodies, a script of server replies, and `sid`.
  - Each method's `ensures` ties the new state to a step function (`Call`, `AuthTokenStep`,
    `OpenStep`, `CloseStep`, `SubmitStep`).
  - The protocol properties are lemmas about those step functions: how many calls are made,
    what each one carries, and how `sid` moves.

Values are `Json.Value`: JSON documents, and also the Python values rows and dumps are made of,
with `None` as `JNull`. A Python `dict` with string keys is an `Object`
(`map<string, Value>`). A `Metadata` record is the `Object` that `model_dump()` returns. Its
subset type states that exactly the 29 declared fields are present and that each holds a value
its type admits.

Two behaviours worth knowing:
- `submit` removes only the `api` key from the reply (gisaid_cli/gisaid.py:123).
- A malformed token reply raises the error Python meets first (gisaid_cli/gisaid.py:62-67):
  `KeyError`, `TypeError` or a pydantic `ValidationError`.

## Model

| member | source | states |
|---|---|---|
| IoUtils.Rstrip | gisaid_cli/io_utils.py:35-37 | `rstrip()` keeps a prefix of the line that does not end in whitespace, and everything it drops is whitespace |
| IoUtils.RstripIdempotent | gisaid_cli/io_utils.py:35-37 | stripping an already stripped line changes nothing |
| IoUtils.HeaderName | gisaid_cli/io_utils.py:35 | a header's name is the line after `>` with its trailing whitespace, and only that, removed |
| IoUtils.ConcatAppend | gisaid_cli/io_utils.py:31 | `"".join` of two runs of lines is the concatenation of their joins |
| IoUtils.Stripped | gisaid_cli/io_utils.py:36-37 | the kept body lines are no more than the lines read, and none ends in whitespace |
| IoUtils.LoadSequences | gisaid_cli/io_utils.py:20-45 | the reader's loop over `header` and `body_lines` returns exactly `SequencesOf(lines)` |
| IoUtils.RecordsAfterHeader | gisaid_cli/io_utils.py:28-35 | a header line closes the open record and opens an empty one named after it |
| IoUtils.RecordsAfterOther | gisaid_cli/io_utils.py:24-36 | an empty line, or any line before the first header, changes no record |
| IoUtils.RecordsAfterBodyLine | gisaid_cli/io_utils.py:36-37 | any other line is appended, right-stripped, to the open record's body |
| IoUtils.CollectLast | gisaid_cli/io_utils.py:29-33 | flushing a record sets its header to the joined body, or adds nothing when the body is empty |
| IoUtils.RecordsOpenWithHeader | gisaid_cli/io_utils.py:28-35 | input that opens with a header has an open record |
| IoUtils.RecordsOfPreamble | gisaid_cli/io_utils.py:24-37 | lines without a header produce no record |
| IoUtils.RecordsOfSegment | gisaid_cli/io_utils.py:27-37 | a header and the header-free lines after it make one record whose body is those lines, stripped, in order |
| IoUtils.RecordsAppend | gisaid_cli/io_utils.py:27-35 | after a header, the records of the rest are read independently of what came before |
| IoUtils.CollectAppend | gisaid_cli/io_utils.py:29-31 | entries flushed later overwrite earlier ones of the same name |
| IoUtils.CollectKeys | gisaid_cli/io_utils.py:31 | every entry comes from a record of that name |
| IoUtils.RecordHeaders | gisaid_cli/io_utils.py:28-35 | every record is named after a header line of the input |
| IoUtils.KeysAreHeaders | gisaid_cli/io_utils.py:28-35 | every key of the result is a line that began with `>`, with the `>` removed and trailing whitespace stripped |
| IoUtils.NoHeaderNoSequences | gisaid_cli/io_utils.py:24-45 | input without a header line yields an empty dictionary |
| IoUtils.PreambleDiscarded | gisaid_cli/io_utils.py:24-36 | lines before the first header do not affect the result |
| IoUtils.FlushRecord | gisaid_cli/io_utils.py:29-37 | a header and its body lines set the header to the in-order join of the stripped lines, or add nothing when none were kept |
| IoUtils.TrailingHeaderFlush | gisaid_cli/io_utils.py:39-43 | the record open at end of input is flushed exactly as a further header would flush it |
| IoUtils.EmptyRecordDropped | gisaid_cli/io_utils.py:29-33 | a header followed directly by another header, or by end of input, gets no entry |
| IoUtils.RecordValue | gisaid_cli/io_utils.py:31-41 | a header whose name is not repeated later maps to the in-order join of the stripped lines up to the next header or end of input |
| IoUtils.LaterDuplicateWins | gisaid_cli/io_utils.py:31 | when a name occurs twice with a non-empty body, the later record's sequence is the one kept |
| IoUtils.BlankBodyGivesEmptySequence | gisaid_cli/io_utils.py:36-37 | a blank body line is kept, so its header maps to the empty sequence |
| Submissions.Kept | gisaid_cli/submissions.py:17-20 | the kept items are no more than the input, and each has a sequence |
| Submissions.JoinedRow | gisaid_cli/submissions.py:22-25 | the row built for a kept item: its dumped fields merged with `covv_sequence` and `subm_confirmed` (a definition; `JoinedRowMetadata`, `JoinedRowFields` and `JoinedRowValidates` state what it holds) |
| Submissions.GenerateSubmissions | gisaid_cli/submissions.py:9-32 | the loop returns the join of the items with their sequences, and the sequence names no kept item claimed |
| Submissions.JoinedRowMetadata | gisaid_cli/submissions.py:22-26 | the row built for a kept item validates back to that item's metadata, unchanged |
| Submissions.JoinedRowFields | gisaid_cli/submissions.py:22-25 | the row built for a kept item carries its sequence and the confirmation, and no `st` |
| Submissions.JoinedRowValidates | gisaid_cli/submissions.py:22-26 | `Submission.model_validate` never fails on that row, and gives the item, its sequence, the confirmation and the default `st` |
| Submissions.KeptAppend | gisaid_cli/submissions.py:17-26 | filtering keeps input order: filtering two runs of items is filtering each |
| Submissions.KeptCount | gisaid_cli/submissions.py:17-26 | an item whose name has a sequence is kept as many times as it occurs, and otherwise not at all: nothing is deduplicated |
| Submissions.JoinIsKept | gisaid_cli/submissions.py:17-26 | the i-th submission is made from the i-th kept item |
| Submissions.SubmissionContents | gisaid_cli/submissions.py:22-26 | each submission carries its item's fields unchanged, `sequences[covv_virus_name]`, the given confirmation and the default `st` |
| Submissions.UnmatchedItemSkipped | gisaid_cli/submissions.py:18-20 | an item whose name has no sequence produces no submission |
| Submissions.JoinLength | gisaid_cli/submissions.py:15-26 | there are no more submissions than metadata items |
| Submissions.NamesSnoc | gisaid_cli/submissions.py:21 | adding an item adds its name to the names of the list |
| Submissions.KeptNamesAreMatchedNames | gisaid_cli/submissions.py:21 | the collected names are the metadata names that are also sequence names |
| Submissions.NotInMetaIsUnclaimed | gisaid_cli/submissions.py:28 | `not_in_meta` is the sequence names minus the names carried by any metadata item |
| Models.EmptyStringToNone | gisaid_cli/models.py:9-12 | `None` and `""` become `None`, and every other falsy value does too; a non-empty string is returned unchanged; the result is never `""` |
| Models.EmptyStringToNoneIdempotent | gisaid_cli/models.py:9-12 | normalising twice is normalising once |
| Models.MetadataErrors | gisaid_cli/models.py:25-54 | the fields `Metadata.model_validate` rejects: a required field that is missing or not a `str`, an optional field present with a value that is neither falsy nor a `str` (a definition; `MetadataErrorsEmpty` and `ErrorsNameFields` state its properties) |
| Models.FieldValue | gisaid_cli/models.py:25-54 | the value a field receives: a required field the row's value, an optional field `empty_string_to_none` of the row's value or the default `None` (a definition; `ValidatedRequiredField`, `OptionalFieldDefaultsToNone` and `OptionalFieldNormalised` state what a validated record holds) |
| Models.MetadataErrorsEmpty | gisaid_cli/models.py:25-54 | a row has no errors exactly when every required field is a string and every optional field is absent, falsy or a string |
| Models.FieldValuesValid | gisaid_cli/models.py:25-54 | on a row that validates, every field receives a value its declared type admits |
| Models.FieldMapIsMetadata | gisaid_cli/models.py:25-54 | the fields of a row that validates make a `Metadata` record |
| Models.MetadataFromRow | gisaid_cli/models.py:25-54 | `model_validate` fails exactly when some field is invalid and then names every invalid field; otherwise each field receives its value |

| Models.ValidatedRequiredField | gisaid_cli/models.py:26-32 | a validated required field holds the row's string |
| Models.OptionalFieldDefaultsToNone | gisaid_cli/models.py:33-53 | an optional field the row does not supply defaults to `None` |
| Models.OptionalFieldNormalised | gisaid_cli/models.py:9-15 | a supplied optional field holds the normalised value: `None` for a falsy value, the string otherwise |
| Models.MetadataFieldsValidate | gisaid_cli/models.py:25-54 | every `Metadata` record passes validation |
| Models.MetadataFieldValuesFixed | gisaid_cli/models.py:9-15 | each field of a record is a fixed point of the value validation assigns |
| Models.MetadataRoundTrip | gisaid_cli/models.py:25-54 | validating a dumped record gives the record back |
| Models.MetadataIgnoresExtraKeys | gisaid_cli/models.py:25-54 | keys that are not fields do not change the result of validation |
| Models.OwnFieldsAreNotMetadata | gisaid_cli/models.py:57-62 | the keys of a submission's own fields are disjoint from the `Metadata` fields |
| Models.Dump | gisaid_cli/models.py:57-62 | `model_dump(mode="json", by_alias=...)` of a submission: the record's fields merged with the three added fields under their names or aliases (a definition; the `Dump...` lemmas state its contents) |
| Models.DumpKeepsMetadata | gisaid_cli/models.py:57-62 | a dump, by name or by alias, holds every metadata field unchanged |

| Models.DumpOwnFields | gisaid_cli/models.py:57-62 | a dump holds the sequence, the confirmation's value and `st`, under their names or aliases |
| Models.DumpHasNoOtherKeys | gisaid_cli/models.py:57-62 | a dump holds nothing but the metadata fields and the three added fields |
| Models.DumpByAliasUsesAliases | gisaid_cli/models.py:59-62 | a dump by alias emits `_subm_confirmed` and `_st`, and not `subm_confirmed` or `st` |
| Models.SubmissionErrors | gisaid_cli/models.py:57-62 | the fields `Submission.model_validate` rejects: the `Metadata` errors, plus `covv_sequence` when not a `str`, `subm_confirmed` when not an enumeration value, `st` when present and not a `str` (a definition) |
| Models.ErrorsNameFields | gisaid_cli/models.py:25-62 | errors only ever name declared fields, and a `Submission` reports every error its `Metadata` part would |
| Models.SubmissionFromRow | gisaid_cli/models.py:57-62 | `Submission.model_validate` fails exactly when a metadata field, `covv_sequence`, `subm_confirmed` or `st` is invalid, and names them all; otherwise the result holds the metadata, the sequence, the confirmation, and `st` or its default `"v 3.0.4"` |
| Models.MetadataWithExtras | gisaid_cli/models.py:25-54 | a record with keys added that are not fields validates to the record |
| Models.SubmissionFromValidRow | gisaid_cli/models.py:57-62 | a row with valid metadata, a sequence string and a confirmation value validates to the submission they make, with `st` defaulting when absent |
| Models.SubmissionRoundTrip | gisaid_cli/models.py:57-62 | validating a submission dumped by field name gives it back |
| Models.AliasedDumpMetadataValid | gisaid_cli/models.py:57-62 | the metadata part of a dump by alias still validates |
| Models.AliasedDumpIsNotRevalidated | gisaid_cli/models.py:59-62 | aliases are for output only: a dump by alias fails validation, naming only `subm_confirmed` |
| Enums.ConfirmationFromValue | gisaid_cli/enums.py:10-13 | the member whose value is the string, and none exactly when no member has that value |
| Enums.ConfirmationValueRoundTrip | gisaid_cli/enums.py:10-13 | every confirmation member is recovered from its value |
| Enums.DatabaseValueInjective | gisaid_cli/enums.py:4-7 | distinct databases have distinct values |
| Gisaid.HashPassword | gisaid_cli/gisaid.py:19-28 | `_hash_password`: the salt, `/`, then the digest of the salt followed by the digest of the password (a definition; `SaltRecoverable` and `ServerAcceptsHash` state its properties) |
| Gisaid.IndexOf | gisaid_cli/gisaid.py:19-28 | the first position of a character, or -1 when it does not occur |
| Gisaid.SplitHash | gisaid_cli/gisaid.py:19-28 | a hashed password splits at its first `/` into two parts that rebuild it |
| Gisaid.SaltRecoverable | gisaid_cli/gisaid.py:19-28 | `_hash_password` is `salt + "/" + H(salt + H(password))`, and the text before its first `/` is the salt |
| Gisaid.ServerAcceptsHash | gisaid_cli/gisaid.py:19-28 | a server that stores `H(password)` accepts the hashed password |
| Gisaid.WithEnvelope | gisaid_cli/gisaid.py:39-44 | the envelope sets `api` to `{"version": 1}` and `ctx` to the database value, overwriting them, and leaves every other key unchanged |
| Gisaid.EnvelopeOverwrites | gisaid_cli/gisaid.py:39-44 | enveloping twice is enveloping once with the later database |
| Gisaid.Call | gisaid_cli/gisaid.py:38-47 | one call appends the enveloped request to the trace and consumes one reply; it succeeds exactly when that reply is an answer |
| Gisaid.TokenCommand | gisaid_cli/gisaid.py:54-59 | the `state/auth/get_token` command with `client_id`, `login` and `hash` (a definition; `AuthTokenRequest` states what is sent) |
| Gisaid.TokenFrom | gisaid_cli/gisaid.py:62-67 | a token is built exactly when the reply is an object with a string `auth_token` and a numeric `valid_until`; it carries the database, the client id and the reply's `auth_token`; a missing `auth_token` raises `KeyError` first |
| Gisaid.AuthTokenRequest | gisaid_cli/gisaid.py:49-67 | `request_auth_token` makes exactly one call, carrying `cmd`, `client_id`, `login`, the hash and the envelope; a token it returns carries the database, the client id and the reply's `auth_token` |
| Gisaid.LogonCommand | gisaid_cli/gisaid.py:88-93 | the `state/session/logon` command with `api`, the token's `client_id` and `auth_token` (a definition; `OpenWhenClosed` states what is sent) |
| Gisaid.LogoffCommand | gisaid_cli/gisaid.py:104 | the `state/session/logoff` command with the current `sid` (a definition; `CloseCalls` states what is sent) |
| Gisaid.UploadCommand | gisaid_cli/gisaid.py:115-120 | the `data/hcov-19/upload` command with `sid`, `data` and `submitter` (a definition; `UploadCommandFields` states what is sent) |
| Gisaid.SidOf | gisaid_cli/gisaid.py:97 | `result.get("sid")` leaves the session closed exactly when `sid` is missing or `null`, and fails on a reply that is not an object |
| Gisaid.OpenWhenOpen | gisaid_cli/gisaid.py:84-85 | `open` on an open session makes no call and changes nothing |
| Gisaid.OpenWhenClosed | gisaid_cli/gisaid.py:87-97 | `open` on a closed session makes exactly one logon call carrying the token's client id and token, then takes `sid` from the reply |
| Gisaid.OpenIdempotent | gisaid_cli/gisaid.py:83-97 | once `open` has opened the session, opening again makes no call |
| Gisaid.CloseCalls | gisaid_cli/gisaid.py:99-107 | `close` on a closed session makes no call; on an open one it makes exactly one logoff call carrying `sid`, then clears `sid` unless the call raised |
| Gisaid.SubmitWhenClosed | gisaid_cli/gisaid.py:110-111 | `submit` on a closed session raises and makes no call |
| Gisaid.UploadCommandFields | gisaid_cli/gisaid.py:114-121 | the upload request carries `cmd`, `sid`, the data, the submitter and the database context |
| Gisaid.SubmitWhenOpen | gisaid_cli/gisaid.py:109-124 | `submit` on an open session makes exactly one upload call and returns the reply without `api` |
| Gisaid.OpenAnswered | gisaid_cli/gisaid.py:83-97 | `open` against a server that answers with an object |
| Gisaid.SubmitAnswered | gisaid_cli/gisaid.py:109-124 | `submit` against a server that answers with an object |
| Gisaid.CloseAnswered | gisaid_cli/gisaid.py:99-107 | `close` against a server that answers |
| Gisaid.LifecycleSteps | gisaid_cli/gisaid.py:83-124 | against a server that answers logon with a `sid`, then the upload, then logoff, each step sends its command and consumes exactly one reply |
| Gisaid.SessionLifecycle | gisaid_cli/gisaid.py:76-124 | an `async with` block with one submission sends logon, upload and logoff in that order; the upload carries the new `sid`, and the session ends closed |
| Gisaid.GisaidClient.constructor | gisaid_cli/gisaid.py:35-36 | a new client has sent nothing |
| Gisaid.GisaidClient.CallApi | gisaid_cli/gisaid.py:38-47 | `call_api` changes the client's wire and returns as `Call` says |
| Gisaid.GisaidClient.RequestAuthToken | gisaid_cli/gisaid.py:49-67 | `request_auth_token` changes the wire and returns as `AuthTokenStep` says |
| Gisaid.GisaidSession.constructor | gisaid_cli/gisaid.py:71-74 | a new session holds the token and the client and is closed (`sid` is `None`) |
| Gisaid.GisaidSession.Open | gisaid_cli/gisaid.py:83-97 | `open` changes the wire and `sid` as `OpenStep` says |
| Gisaid.GisaidSession.Close | gisaid_cli/gisaid.py:99-107 | `close` changes the wire and `sid` as `CloseStep` says |
| Gisaid.GisaidSession.Submit | gisaid_cli/gisaid.py:109-124 | `submit` sends the submission dumped by alias with its submitter, leaves `sid` unchanged, and returns as `SubmitStep` says |
| Gisaid.GisaidSession.Enter | gisaid_cli/gisaid.py:76-78 | `__aenter__` opens the session |
| Gisaid.GisaidSession.Exit | gisaid_cli/gisaid.py:80-81 | `__aexit__` closes the session |

## Left out

- `load_metadata` (gisaid_cli/io_utils.py:10-17): CSV parsing is left out. A CSV row is taken
  to be an `Object` of strings, and its validation is `Models.MetadataFromRow`.
- gisaid_cli/jobs.py (the asyncio worker pool, result logging, `authenticate`) and
  gisaid_cli/cli.py (command-line parsing, prompts, token files, timing) are not part of this
  model. Their point is concurrency and I/O.
- File I/O: `LoadSequences` takes the lines that file iteration would yield.
- SHA-512 and the UTF-8/ASCII encodings are the function parameter `sha512Hex`.
- `secrets.token_urlsafe(64)` is randomness, so the salt is a parameter. Its alphabet is
  stated as `UrlSafe`.
- HTTP and response parsing are replaced by a script of replies. An aiohttp error or a body
  that is not JSON is a `TransportError` reply. Running out of scripted replies counts as a
  failed call.
- The `asyncio.sleep` delays have no observable effect on the model and are left out.
- Logging (the "Empty sequence" and "Sequence not found" warnings, and the not-in-metadata
  message) is a side effect only.
- Gisaid.TokenFrom: `datetime.fromtimestamp` is not modelled. The expiry is kept as the raw
  integer timestamp, and its range errors (`OverflowError`, `OSError`) are not modelled.
- Json.Value has no floating-point numbers, so a float `valid_until` is not modelled.
- Gisaid.GisaidClient.CallApi: `data.update` mutates the caller's dict in place. The model
  returns the enveloped copy instead. Every caller passes a fresh dict literal, so nothing
  observes the difference.
- Submissions.GenerateSubmissions: the model also returns `not_in_meta`, which the source
  only logs.
- Models.SubmissionFromRow: pydantic's error messages and the order of errors are not
  modelled. Only the set of failing fields is kept.
- Models.MetadataFromRow: pydantic's type coercions are not modelled. Only an exact `str`
  value passes as a `str` field, as in lax mode for the JSON-like values modelled here.
